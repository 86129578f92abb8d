# MSST job orchestration, modelled in Dafny

This project models the job orchestration of MSST, a web front end for music source
separation. A user uploads audio and picks a separation preset. A scheduler (`MissionManager`)
queues the job, starts a worker process for it, and polls the worker until it exits. The worker
runs the preset's steps one after another. A per-job progress store keeps `progress.json` in the
job folder, caches it for 30 seconds, recounts finished songs from the output files, and locks
the total once it has been established. Around this sit:

- the user table with its log-in rule;
- the client settings file;
- the model cache of the inference layer;
- three helpers of the web UI.

The model works on values:

- The filesystem is a `Disk` object. It holds directory listings, job descriptor files
  (`mission.json`), presets and the thread-count file.
- Paths use POSIX `/` joins.
- Time is an integer `now` passed into each call.
- The worker process and the inference calls are opaque. Where the code depends on their
  outcome, the outcome is a parameter: `spawnFails`, the step `results`, the model `load`.
- Filesystem effects of the worker are returned as a list of events (`MakeDirs`, `Copy`,
  `Infer`, `RemoveTree`).

Objects that the code updates in place are Dafny classes with `modifies` clauses:

- the job (`Missions.Mission`);
- the scheduler (`MissionManager.Manager`);
- the process holder (`CommandExecutor.Executor`, `CommandExecutor.Process`);
- the progress store (`TaskProgress.ProgressStore`);
- the user table (`Client.UserTable`);
- the model cache (`ModelCache.ModelManager`).

Each of their methods is tied by its `ensures` to a pure function of the old state, and the
properties are proved about those functions.

Where the code differs from what a reader of its comments would expect, the model follows the
code:

- A start whose command fails leaves the job in `running`. The job was moved there before the
  launch and is not moved back.
- In `_count_input_songs`, the fallback through `mission.json` sits after a `return 1` in an
  `except` branch, so it can never run. The model returns 1 there.
- `init_progress` and `_count_input_songs` count `.ogg` files as audio (`Disk.AudioExts`). The
  worker's existing-result check does not (`Disk.WorkerAudioExts`).

Modules:

- one per source file: `Actions`, `Client`, `CommandExecutor`, `MissionManager` and `Missions`
  (both from `clientui/mission.py`), `ModelCache`, `PresetCli`, `ScriptsPresetCli`,
  `TaskProgress`, `WebuiUtils`;
- helpers: `Wrappers`, `Strings`, `Paths`, `Disk`, `Queues`.

## Model

| member | source | states |
|---|---|---|
| TaskProgress.ProgressStore.constructor | clientui/task_progress.py:8-12 | A new store has the given progress files and an empty cache, empty freshness stamps and nothing being verified |
| TaskProgress.MergeKeepsLockedTotal | clientui/task_progress.py:113-128 | An update merged into a locked record keeps the record's total and keeps it locked, whatever total the update carries |
| TaskProgress.MergeUnlocked | clientui/task_progress.py:124-128 | Into an unlocked record, each field the update gives replaces the current one, and each field it omits keeps its old value |
| TaskProgress.MergeFullSelf | clientui/task_progress.py:122-130 | Merging a record with itself changes only its last-update time |
| TaskProgress.LockedTotalIsFinal | clientui/task_progress.py:113-128 | After any series of updates that do not clear the lock, a locked total is still the original total and still locked |
| TaskProgress.OutputsPerSong | clientui/task_progress.py:422-465 | Outputs per song is never below 1, on every error path included |
| TaskProgress.OutputsPerSongFromPreset | clientui/task_progress.py:440-457 | With a readable descriptor and preset, outputs per song is the number of storage outputs over the preset's steps, or 1 when there are none |
| TaskProgress.InputSongs | clientui/task_progress.py:467-530 | The input song count is never below 1 |
| TaskProgress.Recount | clientui/task_progress.py:261-330 | The recounted record is locked. Its total is the locked total when one was set, otherwise the song count. Processed songs are the songs whose outputs are all there (`count // outputs_per_song`, characterised by `processed * ops <= count < (processed + 1) * ops`), capped at the old total when that is positive. The status is completed exactly when processed reaches a positive total, otherwise running. An existing end time is kept, and a first completion stamps `now` |
| TaskProgress.VerifiedOnlyRunning | clientui/task_progress.py:222 | A record that is not running passes verification unchanged and is not saved |
| TaskProgress.VerifiedCompletionIsFinal | clientui/task_progress.py:222-330 | Once verification has moved a record out of running, verifying it again, later and on any disk, changes nothing |
| TaskProgress.VerifiedKeepsEndTime | clientui/task_progress.py:300-313 | Verification never overwrites an end time already recorded |
| TaskProgress.RecountCompletion | clientui/task_progress.py:237-330 | A running record of a job whose descriptor is not completed and which has an `inputs` folder is recounted and saved. It comes out locked, and completed exactly when processed reaches a positive total |
| TaskProgress.LookupKeepsVerifying | clientui/task_progress.py:147-208 | A lookup leaves the set of folders under verification as it found it |
| TaskProgress.LookupFromCache | clientui/task_progress.py:158-174 | A cache entry younger than 30 seconds and not older than the file is returned as it is, and the store is not touched |
| TaskProgress.LookupDeletesCorrupt | clientui/task_progress.py:177-188 | When the cache is stale and the file is corrupt, the lookup returns nothing and deletes the file; the cache is untouched |
| TaskProgress.LookupFound | clientui/task_progress.py:147-208 | A lookup finds a record exactly when the cache is fresh or the file parses, and a found record is then the cached one |
| TaskProgress.UpdateWritesMerged | clientui/task_progress.py:99-145 | An update succeeds exactly when the lookup finds a record. The merged record is then written to both the file and the cache; on failure only the lookup's effects remain |
| TaskProgress.UpdateRespectsLock | clientui/task_progress.py:113-128 | An update of a locked record, unless it clears the lock, stores the looked-up total and leaves the record locked |
| TaskProgress.InitialTotal | clientui/task_progress.py:32-57 | The initial total is the number of audio files of the input folder. With none, it is the number of sub-folders. It is at least 1 |
| TaskProgress.StepNumbers | clientui/task_progress.py:377-384 | The step keys are exactly 1 to n |
| TaskProgress.StepProgressFor | clientui/task_progress.py:353-389 | Step progress exists exactly when the preset is readable and has at least two steps; it then has one entry per step, each at 0 of the total |
| TaskProgress.InitRecord | clientui/task_progress.py:32-76 | A new record is waiting, unlocked, at 0 processed, started `now`, with no end time and no details. Its total is `InitialTotal` of the input listing (the audio count, else the sub-folder count, never below 1), and its step entries are those `StepProgressFor` gives for the preset, none without a preset |
| TaskProgress.InitRecordSteps | clientui/task_progress.py:71-76 | With a preset of two or more steps, the new record carries one step entry per step and their count as total steps |
| TaskProgress.StepUpdated | clientui/task_progress.py:404-417 | A step update succeeds exactly when the step exists. It changes only that step's processed count and keeps the other steps, the totals and the status |
| TaskProgress.FindDetail | clientui/task_progress.py:683-687 | Returns the first detail entry for a file name, or -1 when there is none |
| TaskProgress.FileUpdated | clientui/task_progress.py:676-697 | A file update counts one more processed file exactly when its status is completed. It changes the status of the first matching detail entry and keeps the others, or appends a new entry when none matches |
| TaskProgress.FileUpdateStoresTouched | clientui/task_progress.py:668-699 | On a fresh cache a file update succeeds and stores the updated record |
| TaskProgress.TotalDurationFrozen | clientui/task_progress.py:532-557 | A finished or stopped job's duration is its end time minus its start time at every later moment; a running job's duration grows with the clock |
| TaskProgress.FormatDuration | clientui/task_progress.py:657-666 | The unit is seconds below 60, minutes below 3600 and hours above; the amount times the unit's length gives back the seconds |
| TaskProgress.ProgressStore.SaveDirectly | clientui/task_progress.py:338-351 | The record is stamped `now` and put into both the file and the cache |
| TaskProgress.ProgressStore.InitProgress | clientui/task_progress.py:18-89 | Writes and returns the initial record of `InitRecord` |
| TaskProgress.ProgressStore.GetProgress | clientui/task_progress.py:147-208 | Result and new state are those of the lookup, verification included |
| TaskProgress.ProgressStore.VerifyStatus | clientui/task_progress.py:210-336 | Result and new state are those of `VerifyStep`: the re-entry guard, the mission.json check, the recount and the removal from the guard set |
| TaskProgress.ProgressStore.UpdateProgress | clientui/task_progress.py:99-145 | Success flag and new state are those of `UpdateSpec` |
| TaskProgress.ProgressStore.UpdateStepProgress | clientui/task_progress.py:391-420 | Success flag and new state are those of the step update |
| TaskProgress.ProgressStore.UpdateFileProgress | clientui/task_progress.py:668-702 | Success flag and new state are those of the file update |
| TaskProgress.ProgressStore.GetTotalDuration | clientui/task_progress.py:532-557 | The duration of the looked-up record, with the lookup's effect on the store |
| TaskProgress.ProgressStore.ClearProgress | clientui/task_progress.py:704-723 | Removes the folder's file, cache entry and stamp, and nothing else |
| TaskProgress.CountInitialTotal | clientui/task_progress.py:32-57 | The counting loop computes `InitialTotal` |
| TaskProgress.InitStepProgress | clientui/task_progress.py:353-389 | The key loop computes `StepProgressFor` |
| TaskProgress.RecountRecord | clientui/task_progress.py:237-330 | The gathering and recount block computes `Recount` over the collected outputs |
| TaskProgress.GetOutputsPerSong | clientui/task_progress.py:422-465 | The summing loop computes `OutputsPerSong` |
| TaskProgress.CountInputSongs | clientui/task_progress.py:467-530 | The counting loop computes `InputSongs` |
| TaskProgress.CollectOutputs | clientui/task_progress.py:237-259 | The gathering loops count the outputs of `outputs`, `batch_output` and every sub-task folder |
| Missions.ReadThreadCount | clientui/mission.py:12-20 | A missing thread file is created holding 1, and 1 is returned; otherwise the stored count is returned and nothing changes |
| Missions.WriteThreadCount | clientui/mission.py:23-26 | The thread file holds the new count; nothing else on disk changes |
| Missions.Summarize | clientui/mission.py:63-70 | A descriptor's progress part exists exactly when the record does, and then carries its processed and total counts |
| Missions.Forwarded | clientui/mission.py:86-100 | The forwarded update carries exactly the given processed, total and status, and nothing else |
| Missions.Mission.constructor | clientui/mission.py:30-43 | A new job has the defaults: wav output, skipping existing files, waiting, no descriptor file, no executor, no job folder |
| Missions.Mission.Of | clientui/mission.py:30-43 | A job with every field as given |
| Missions.Mission.Cp | clientui/mission.py:45-59 | A fresh job with the same settings and executor and no job folder |
| Missions.Mission.Describe | clientui/mission.py:72-80 | The descriptor carries the job's folders, preset, format, skip flag, state and the given progress |
| Missions.Mission.Dump | clientui/mission.py:61-80 | The descriptor of the progress read through the store, with the read's effect on the store |
| Missions.Mission.Write | clientui/mission.py:82-84 | The descriptor file holds the dump; nothing else on disk changes |
| Missions.Mission.SettleDir | clientui/mission.py:156-161 | A job without a folder gets its descriptor's folder, and a fresh record is written for it; otherwise nothing changes |
| Missions.Mission.UpdateProgress | clientui/mission.py:86-100 | Without a job folder or with nothing given the store is only read; otherwise it receives the forwarded update |
| Missions.ReportedRespectsLock | clientui/mission.py:86-100 | Progress sent through a job never changes a locked total |
| Missions.Expected | clientui/mission.py:252-272 | The expected song count is at least 1, and the job is a batch exactly when it exceeds 1 |
| Missions.SongsDone | clientui/mission.py:319-323 | Songs done is output files divided by outputs per song, capped at the expected count |
| Missions.ProgressReport | clientui/mission.py:329-350 | The report is completed, with end time `now`, exactly when the process has exited and the job is not a batch short of songs; otherwise running. It carries the songs done and the expected total, and leaves the lock alone |
| Missions.ReportCompletion | clientui/mission.py:331-334 | A single job is reported completed once its process has exited; a live process is never reported completed |
| Missions.ReportOutputs | clientui/mission.py:325-362 | With output files present, the job's record receives the report and an existing mission.json takes its status; otherwise nothing changes |
| Missions.Finalize | clientui/mission.py:365-378 | An exited job that is a batch short of outputs stays running; any other exited job is completed and not running. The descriptor and the store change as written |
| Missions.Reconcile | clientui/mission.py:241-378 | One pass of `check` over a running job: report first, then the exit rule. The job finishes exactly when `Finishes` holds of what was observed before the pass; a live job keeps its state |
| Missions.InputArgsSnoc | clientui/mission.py:503-504 | The batch input arguments of one more folder end with `-i` and that folder quoted |
| Missions.FlagValuesInputArgs | clientui/mission.py:503-504 | The `-i` values of the input arguments are the quoted folders, in order |
| Missions.OtherPartsNotInputFlag | clientui/mission.py:415-426 | No part of a worker command other than the input pairs is `-i` |
| Missions.BatchCommandInputs | clientui/mission.py:493-510 | A batch command passes exactly the quoted input folders, in order, as its `-i` values |
| Missions.SingleCommandInput | clientui/mission.py:415-428 | A single command passes exactly the job's own input folder as its only `-i` value |
| Missions.Matching | clientui/mission.py:458-462 | The collected jobs are exactly the waiting jobs with the head's preset, format and debug flag |
| Missions.MatchingDistinct | clientui/mission.py:458-462 | A queue without repeats yields a batch without repeats |
| Missions.InputDirsOf | clientui/mission.py:472 | The batch's input folders are the collected jobs' folders, in order |
| Missions.CountAudio | clientui/mission.py:171-185 | The listing loop counts the audio files of the folder |
| Missions.MakeSubMission | clientui/mission.py:216-219 | A sub-job is a fresh copy of the job retargeted at the sub-folder, with its own descriptor `mission_<name>.json` and the parent's folder |
| Missions.SubMissions | clientui/mission.py:209-222 | One fresh, distinct sub-job per sub-folder, in listing order |
| Missions.AddLocksTotal | clientui/mission.py:156-198 | A fresh job over a folder of audio files ends with its total locked to the number of audio files |
| Missions.Launch | clientui/mission.py:435-446 | The job has an executor and its process is started unless spawning fails. On success it is running with a running record and a rewritten descriptor; on failure its state is unchanged |
| Missions.RemoveEach | clientui/mission.py:477-478 | Removing each collected job leaves the queue without them, in order |
| Missions.LaunchBatch | clientui/mission.py:493-526 | The batch job is started with the batch command of its folders, under the same success and failure rules |
| Missions.MakeBatchMission | clientui/mission.py:471-474 | The batch job is a fresh copy of the head with the collected folders, output `batch_output` next to the head's output, and the head's descriptor folder |
| Missions.BatchCommand | clientui/mission.py:493-510 | The command-building loop produces the batch command parts |
| Missions.StartOne | clientui/mission.py:404-446 | The head job gets an executor and is started with its single command |
| MissionManager.ReconcileJob | clientui/mission.py:242-378 | A job finishes exactly when `Finishes` holds of its observation, and it is then completed and not running |
| MissionManager.ReconcileEach | clientui/mission.py:241-378 | Each running job is reconciled in turn, and it finishes exactly when its observation taken before the pass says so; a finished job ends completed and not running |
| MissionManager.ReconcileAll | clientui/mission.py:241-378 | The jobs taken out are exactly those whose observation finishes them; they come out completed and not running, and the others stay in order |
| MissionManager.CollectMatching | clientui/mission.py:454-462 | The collecting loop yields `Matching` |
| MissionManager.Manager.constructor | clientui/mission.py:139-144 | Empty queues, both batch switches off, and the thread count read from disk (1 when missing, which also creates the file) |
| MissionManager.Manager.GetStatus | clientui/mission.py:538-547 | Waiting and running counts are the queue lengths and the total is their sum; the settings are reported as they are |
| MissionManager.Manager.SetBatchMode | clientui/mission.py:528-531 | Only the batch switch changes |
| MissionManager.Manager.SetForceBatchMode | clientui/mission.py:533-536 | Only the force switch changes |
| MissionManager.Manager.EnqueueSubMissions | clientui/mission.py:209-226 | One fresh sub-job per sub-folder is appended behind the existing queue |
| MissionManager.Manager.Enqueue | clientui/mission.py:163-226 | A missing input folder queues nothing. A folder with audio queues the job itself; otherwise one sub-job per sub-folder is queued. The store ends as the totals rule says |
| MissionManager.Manager.Add | clientui/mission.py:148-226 | `add`: the job folder is settled, a record is written, and the job or its sub-jobs are queued as in `Enqueue` |
| MissionManager.Manager.StartSingle | clientui/mission.py:395-446 | The head moves from the queue to the end of `running` and is started with its single command; without a spawn failure the start succeeds |
| MissionManager.Manager.MoveHead | clientui/mission.py:401-402 | The head leaves the queue and is appended to `running` |
| MissionManager.Manager.StartBatch | clientui/mission.py:448-526 | An empty queue starts nothing. A head with no match starts alone. Otherwise its matches leave the queue and one batch job over them is appended to `running` and started |
| MissionManager.Manager.StartMerged | clientui/mission.py:471-526 | The collected jobs leave the queue, and the new batch job is appended to `running` and started |
| MissionManager.Manager.MoveBatch | clientui/mission.py:477-480 | The collected jobs leave the queue and the batch job is appended to `running` |
| MissionManager.Manager.StartNext | clientui/mission.py:385-393 | Nothing starts on an empty queue. With both batch switches on, the batch rule applies; otherwise the head starts alone. Either way one job is added to `running` |
| MissionManager.Manager.ReconcileRunning | clientui/mission.py:241-378 | The running jobs whose observation finishes them are taken out, completed and not running; the queue is untouched |
| MissionManager.Manager.Backfill | clientui/mission.py:380-383 | Jobs start while fewer than the thread count run, never beyond it. Without spawn failures it stops only when the count is reached or the queue is empty |
| MissionManager.Manager.Check | clientui/mission.py:237-383 | With both queues empty nothing happens. Otherwise finished jobs are removed, with their state completed. Then the still-running jobs come first, followed by new starts up to the thread count |
| CommandExecutor.Process.constructor | clientui/class_command_executor.py:13-15 | A new process runs the given command and has not exited |
| CommandExecutor.Process.Poll | clientui/class_command_executor.py:10 | `poll` has no exit code exactly while the process is alive |
| CommandExecutor.Process.Kill | clientui/class_command_executor.py:22-23 | A killed process is dead, with the kill exit code unless it had already exited |
| CommandExecutor.Executor.constructor | clientui/class_command_executor.py:6-7 | A new executor holds no process |
| CommandExecutor.Executor.ExecuteCommand | clientui/class_command_executor.py:9-15 | A live process is kept. Otherwise a new live process runs the command, or the call raises when spawning fails |
| CommandExecutor.Executor.KillCommand | clientui/class_command_executor.py:17-30 | With a live process, every descendant and then the parent are killed, all end dead, and dead processes stay dead. Without a live process nothing is killed and no process changes |
| Actions.ClampThreads | clientui/actions.py:124-127 | The thread count is 1 when none is given, and otherwise the request clamped into 1 to 10 |
| Actions.ClampThreadsIdempotent | clientui/actions.py:124-127 | Clamping a clamped count changes nothing |
| Actions.ThreadCountChange | clientui/actions.py:124-129 | The scheduler's count and the thread file both hold the clamped count; nothing else changes |
| Actions.UserList | clientui/actions.py:57-61 | Fails exactly when there is no admin entry, as `list.remove` raises; otherwise lists every user but the admin, in insertion order |
| Actions.DeleteUser | clientui/actions.py:69-81 | Deleting oneself is refused and changes nothing; otherwise the user is removed and the table saved. The choices shown are the user list after the call |
| Actions.UnmatchedMeaning | clientui/actions.py:168-188 | A job survives the removal exactly when its folder differs from the deleted one |
| Actions.RemoveUnflagged | clientui/actions.py:184-188 | The loop of removals leaves exactly the unflagged entries, in order, and reports whether any was removed |
| Actions.StopMatching | clientui/actions.py:168-177 | Each running job of the deleted folder has its process stopped, and every other process, those of jobs in other folders included, keeps its state |
| Actions.StopRunning | clientui/actions.py:168-181 | Running jobs of the folder are stopped and removed, and the processes of jobs in other folders keep their state. A job was terminated exactly when one ran |
| Actions.DropRunning | clientui/actions.py:168-181 | The running list loses exactly the jobs of the folder, in order; the waiting queue and the settings are untouched, and `terminated` is set exactly when one of them ran |
| Actions.DropWaiting | clientui/actions.py:184-188 | Waiting jobs of the folder are removed; the running list is untouched |
| Actions.DeleteQueued | clientui/actions.py:164-188 | Both queues lose exactly the jobs of the folder, the running ones are stopped, the processes of jobs in other folders keep their state, and `terminated` says whether one ran |
| Actions.DeleteMission | clientui/actions.py:158-195 | No job chosen changes nothing, no process included. Otherwise both queues are cleared of the job, its running jobs are killed while the processes of other folders keep their state, and the job's progress is cleared |
| Actions.Standing | clientui/actions.py:427-437 | A position exists exactly when the job waits and does not run. It is the running count plus the job's first index in the queue, plus 1 |
| Actions.CollectMembers | clientui/actions.py:438-454 | The collected users are distinct and non-empty, and are the earlier ones plus every non-empty name met |
| Actions.FirstSeenMembers | clientui/actions.py:438-454 | The preceding users are distinct, and are exactly the non-empty user names |
| Actions.FirstSeenOrder | clientui/actions.py:438-454 | The preceding users appear in the order of their first occurrence |
| Actions.AddUsers | clientui/actions.py:440-446 | A preceding-users loop computes `Collect` over the jobs' user names |
| Actions.PrecedingUsers | clientui/actions.py:438-454 | The users of the running jobs and of the jobs queued ahead, each once, in first-seen order |
| Actions.QueueStanding | clientui/actions.py:427-456 | The position is `Standing`'s, and the user list is the preceding users when a position exists, else empty |
| Actions.Fallback | clientui/actions.py:304-310 | The fallback shows the output count as processed, a total of at least 1 (the count when positive), and is completed exactly when the count is positive |
| Actions.NoRecordFallback | clientui/actions.py:304-313 | As written: a positive count sends the fallback through `update_progress`; a zero count leaves the store alone |
| Actions.FallbackNotPersisted | clientui/actions.py:304-313 | When no record is found, the fallback update is refused and stores nothing, so the next lookup still finds no record |
| Actions.NoRecordFallbackSaved | clientui/actions.py:304-313 | Corrected: a positive count saves the fallback record directly |
| Actions.FallbackSavedFound | clientui/actions.py:304-313 | After the corrected save, the next lookup finds the fallback record: completed, with the count as both processed and total |
| Actions.TallySnoc | clientui/actions.py:368-380 | Counting one more sub-job descriptor adds that descriptor's counts |
| Actions.TallyAllCompleted | clientui/actions.py:368-380 | The completed count equals the sub-job count exactly when every sub-job is completed |
| Actions.TallyRunning | clientui/actions.py:368-380 | Some sub-job is flagged running exactly when one descriptor says running |
| Actions.ParentCompletedIff | clientui/actions.py:395-408 | The parent is completed exactly when there are sub-jobs and all of them are completed; otherwise it is running |
| Actions.TallySubTasks | clientui/actions.py:363-380 | The listing loop tallies the sub-job descriptors under `inputs` |
| Actions.SubTaskUpdate | clientui/actions.py:383-393 | The sub-task update sets processed to the completed count and locks the total. It sets the total only when none is set yet, and then to the sub-job count |
| Actions.AggregateParent | clientui/actions.py:353-412 | Only a running job with output files and a readable mission.json is aggregated. Its record and its mission.json then get the parent status derived from the sub-jobs; in every other case nothing changes |
| Client.Put | client.py:33-36 | Storing a key maps it to the value, keeps every other entry, and keeps the key order, appending a new key |
| Client.Pop | clientui/actions.py:75 | Popping a key removes exactly that entry and its place in the order, and keeps every other entry |
| Client.DigestNotTemp | client.py:29-31 | A hex digest never starts with `TEMP_` |
| Client.StoredHash | client.py:26-31 | A `TEMP_` password is stored as the hash of what follows the prefix; any other as its own hash |
| Client.Added | client.py:22-41 | A user is added exactly when the name is new, with the stored hash and admin flag, appended in order; otherwise the table is unchanged |
| Client.Authenticated | client.py:44-77 | Log-in fails for an unknown user or a non-admin asking admin rights, and changes nothing on failure. Other users are never touched |
| Client.AuthByHash | client.py:74-77 | For a hashed password, log-in succeeds exactly when the hash matches (and admin rights hold when asked), and changes nothing |
| Client.TempUpgradedOnce | client.py:55-73 | A `TEMP_` password is accepted exactly when the given password is what follows the prefix. It is then replaced by its hash, its note is dropped, and the same log-in succeeds again without change |
| Client.AddedLogsIn | client.py:22-77 | A user just added can log in with the password they were given (without any `TEMP_` prefix), admin rights included when granted |
| Client.AdminTable | client.py:12-16 | The fresh table is well formed and holds only `admin`, an administrator stored under the hash of `ypd@123` |
| Client.FreshAdminLogsIn | client.py:12-16 | On the fresh table the administrator logs in with administrator rights under the default password, changing nothing |
| Client.StartUpAsWritten | client.py:11-19 | As written, start-up fails exactly when there is no user file (the circular `add_user` call, clientui/actions.py:91-92, reaches `client.add_user` before it is defined); otherwise the saved table is loaded |
| Client.FreshInstallAsWritten | client.py:12-16 | As written a fresh installation fails to start, while the intended start-up gives a table the administrator logs in to |
| Client.UserTable.constructor | client.py:11-19 | The evidently intended start-up: a missing user file gives `AdminTable`, the admin alone under the default password hash, written out; otherwise the saved table |
| Client.UserTable.AddUser | client.py:22-41 | The table becomes `Added`'s; the file is written only on success |
| Client.UserTable.Auth | client.py:44-77 | The table becomes `Authenticated`'s; the file is written only when the table changed |
| Client.DefaultConfig | client.py:96-106 | The defaults form a well-formed settings dict: distinct keys, in order, each with a value |
| Client.MissingKeys | client.py:112-114 | The default keys absent from the file, in default order |
| Client.WithDefaults | client.py:111-115 | Merging keeps every key of the file with its value and adds exactly the absent default keys |
| Client.MergeKeys | client.py:111-115 | The merged key order is the file's, followed by the missing default keys |
| Client.MergeDefaultValues | client.py:111-115 | Each added key holds its default value |
| Client.MergeDefaults | client.py:111-115 | The merging loop computes `WithDefaults` over the default keys |
| Client.ConfigFile.Load | client.py:93-123 | A missing file is created with the defaults, which are returned. A corrupt file returns the defaults and stays as it is. A parsed file returns its settings with the missing defaults appended |
| ModelCache.ModelKey | inference/model_manager.py:23-29 | The key is model type, configuration and weight paths joined by `_`, then the device string |
| ModelCache.KeyDeterminesIds | inference/model_manager.py:23-29 | For the same model and device kind, two keys agree exactly when the joined device ids do |
| ModelCache.Get | inference/model_manager.py:31-77 | A cached model is returned without loading. Otherwise a successful load is stored with its time and returned, and a failed load raises and leaves the cache alone |
| ModelCache.Clear | inference/model_manager.py:79-94 | A non-empty key removes that model and its time; no key, or the empty one, empties both |
| ModelCache.CoherentKept | inference/model_manager.py:31-94 | Loading and clearing keep every cached model paired with a load time |
| ModelCache.LoadsOnce | inference/model_manager.py:38-40 | Once a key has a model, asking again returns the same model and changes nothing, whatever a new load would do |
| ModelCache.ClearUndoesLoad | inference/model_manager.py:69-88 | Clearing a key just loaded restores the cache as it was |
| ModelCache.ClearOneKeepsOthers | inference/model_manager.py:84-88 | Clearing one key keeps every other model and load time |
| ModelCache.ModelManager.constructor | inference/model_manager.py:17-21 | A new cache is empty |
| ModelCache.ModelManager.GetModel | inference/model_manager.py:31-77 | Result and new cache are those of `Get` under the model's key |
| ModelCache.ModelManager.ClearCache | inference/model_manager.py:79-94 | The new cache is that of `Clear` |
| ModelCache.ModelManager.GetCacheInfo | inference/model_manager.py:96-105 | The count is the number of cached models; the keys and the load times are those of the cache |
| ModelCache.ModelManager.IsModelCached | inference/model_manager.py:107-113 | True exactly when the model's key is cached |
| PresetCli.JobDirOf | clientui/preset_infer_cli.py:46-58 | The job folder is the input folder when it holds a descriptor, else its parent when that does, else none |
| PresetCli.ReportProgress | clientui/preset_infer_cli.py:36-64 | Without a job folder nothing changes; otherwise the job's record receives the processed count |
| PresetCli.SuffixesAppend | clientui/preset_infer_cli.py:128-131 | The name suffixes of two step lists, one after the other, are the suffixes of their concatenation |
| PresetCli.SuffixesNone | clientui/preset_infer_cli.py:128-131 | Steps that pass nothing on add no suffix |
| PresetCli.FinalFilename | clientui/preset_infer_cli.py:125-131 | The final name is the base name followed by `_<input_to_next>` for each step that passes something on |
| PresetCli.AudioNamesMembers | clientui/preset_infer_cli.py:109-112 | The inputs are exactly the listed names with a worker audio extension |
| PresetCli.AudioInputs | clientui/preset_infer_cli.py:109-112 | The listing loop keeps exactly the names with a worker audio extension, in listing order |
| PresetCli.MissingMembers | clientui/preset_infer_cli.py:124-140 | A name is missing exactly when it is an input whose final output is not in the final folder |
| PresetCli.MissingInputs | clientui/preset_infer_cli.py:119-140 | The checking loop computes the missing inputs, and everything exists exactly when none is missing |
| PresetCli.PlanAllPresent | clientui/preset_infer_cli.py:101-151 | The run is skipped exactly when skipping is on, the last step stores outputs, the folder has inputs, and all their final outputs exist |
| PresetCli.PlanProcess | clientui/preset_infer_cli.py:137-140 | A run with missing inputs processes exactly the inputs whose final output is absent |
| PresetCli.PlanInputs | clientui/preset_infer_cli.py:99-151 | The skip check computes the run's plan |
| PresetCli.CopyEvents | clientui/preset_infer_cli.py:171-174 | One copy per missing file, from the input folder to `temp_input`, in order |
| PresetCli.CopyMissing | clientui/preset_infer_cli.py:171-174 | The copying loop yields `CopyEvents` |
| PresetCli.RunEventsSteps | clientui/preset_infer_cli.py:207-222 | Every step run so far appears in the trace, reading its routed input and writing its routed output |
| PresetCli.RunEventsRouted | clientui/preset_infer_cli.py:207-222 | Every inference in the trace is a step run so far, with its routed input and output |
| PresetCli.RunEventsKeep | clientui/preset_infer_cli.py:211-213 | No step ever removes the input folder or `temp_input` |
| PresetCli.RoutingChains | clientui/preset_infer_cli.py:211-222 | Each step after the first reads what the step before it wrote |
| PresetCli.FirstFailure | clientui/preset_infer_cli.py:252-267 | The first failed step, with every earlier one successful, or none when all succeed |
| PresetCli.Reroute | clientui/preset_infer_cli.py:207-222 | One pass of the loop body routes step `k` to its input and output and appends its events |
| PresetCli.RouteSteps | clientui/preset_infer_cli.py:207-268 | The loop runs the steps up to and including the first failure, and reports that failure |
| PresetCli.FirstStepReadsPlan | clientui/preset_infer_cli.py:207-222 | The first step reads the planned input (the input folder or `temp_input`); a one-step preset writes straight to the final folder |
| PresetCli.Prepare | clientui/preset_infer_cli.py:153-190 | The scratch folder is reset, and `temp_input` is made and filled exactly when inputs are missing |
| PresetCli.RunMain | clientui/preset_infer_cli.py:67-271 | The final folder is made first. A raised check or a full skip ends there, and a skipped run copies, infers and removes nothing. Otherwise setup, `step_1_output`, the routed steps up to the first failure follow, and the scratch folder is removed only after complete success |
| PresetCli.BatchCheckAll | clientui/preset_infer_cli.py:307-337 | The batch run is skipped exactly when every folder exists and every input's stem output exists |
| PresetCli.FolderOutputsExist | clientui/preset_infer_cli.py:315-329 | The per-folder loop computes whether the folder is done |
| PresetCli.BatchOutputsExist | clientui/preset_infer_cli.py:311-337 | The folder loop computes the batch check |
| PresetCli.Dispatch | clientui/preset_infer_cli.py:487-494 | A batch run happens exactly with the batch flag and more than one folder; a single run takes the first folder, or `input`; the command line never asks to skip |
| PresetCli.CommandLineNeverSkips | clientui/preset_infer_cli.py:487-494 | Started from the command line, the worker never skips: a single run processes everything, and a batch run is not skipped |
| ScriptsPresetCli.RerouteAsWritten | scripts/preset_infer_cli.py:118-132 | One pass of the loop as written: a one-step preset goes on reading `step_1_output` |
| ScriptsPresetCli.RouteStepsAsWritten | scripts/preset_infer_cli.py:118-166 | The loop as written runs the steps up to the first failure, with its own routing |
| ScriptsPresetCli.AsWrittenAgrees | scripts/preset_infer_cli.py:118-132 | With more than one step, the loop as written routes exactly as the corrected loop |
| ScriptsPresetCli.OneStepReadsScratch | scripts/preset_infer_cli.py:127-132 | A one-step preset over `input` reads the scratch folder as written, and `input` once corrected |
| ScriptsPresetCli.RunMain | scripts/preset_infer_cli.py:17-170 | The older worker, with skipping always on, the fixed cache root and no `step_1_output` made beforehand, its steps routed by the loop as written (a one-step preset reads `step_1_output`); a skipped run copies, infers and removes nothing |
| WebuiUtils.ClassifyFirstMatch | webui/utils.py:519-530 | The hint is the first kind, in test order, whose markers occur in the message; none when no marker occurs |
| WebuiUtils.DetailedError | webui/utils.py:515-533 | The message always ends the result. It is returned alone when nothing matches; otherwise the translated hint and a newline come in front |
| WebuiUtils.KeyLeTotal | webui/utils.py:117 | Key order is total, so `sorted` is well defined |
| WebuiUtils.SortByKeySorted | webui/utils.py:117 | The items are sorted by key and are a permutation of the input |
| WebuiUtils.SortMapCommute | webui/utils.py:115-124 | Rendering the values and sorting by key commute |
| WebuiUtils.RenderedIsMap | webui/utils.py:115-124 | The rendering pass maps each value to its text, keeping the keys |
| WebuiUtils.FormatDict | webui/utils.py:115-124 | The loop's joined items, in braces, are the rendering of the dict |
| WebuiUtils.RenderSorted | webui/utils.py:115-125 | Items rendered in sorted order and joined by `, `, in braces, are the rendering |
| WebuiUtils.FormatValue | webui/utils.py:119-122 | A nested dict is rendered in braces; any other value by its text |
| WebuiUtils.ColorConfig | webui/utils.py:114-125 | The output is the rendering of the configuration |
| WebuiUtils.RenderOrder | webui/utils.py:117 | The rendered items are sorted by key and a permutation of the items |
| WebuiUtils.MainLink | webui/utils.py:140-149 | A configured host other than `Auto` is used as given; otherwise the host is `hf-mirror.com` exactly for the `zh_CN` language, else `huggingface.co` |

## Left out

- Threads and the lock: the scheduler's polling thread (`Manager.loop`, clientui/mission.py:228-235) and the locks of the progress store and model cache are not modelled. Each call runs alone.
- `cli_main` (clientui/mission.py:103-135), an in-process runner that nothing in the repository calls, is not modelled.
- Debug prints, logging, `gr.Info`/`gr.Warning` messages and the UI text are not modelled.
- `init_progress`'s error branch (clientui/task_progress.py:90-97) and the other `except` branches that only print are not modelled. The model has no I/O errors beyond corrupt and missing files.
- MissionManager.Manager.StartSingle: does not restate `LaunchOutcome`, the store and descriptor effect of a start; `Missions.Launch`, `Missions.LaunchBatch` and `Missions.StartOne` state it.
- MissionManager.Manager.StartBatch: does not restate `LaunchOutcome`, the store and descriptor effect of a start; `Missions.Launch`, `Missions.LaunchBatch` and `Missions.StartOne` state it.
- MissionManager.Manager.StartMerged: does not restate `LaunchOutcome`, the store and descriptor effect of a start; `Missions.Launch`, `Missions.LaunchBatch` and `Missions.StartOne` state it.
- MissionManager.Manager.StartNext: does not restate `LaunchOutcome`, the store and descriptor effect of a start; `Missions.Launch`, `Missions.LaunchBatch` and `Missions.StartOne` state it.
- MissionManager.Manager.Backfill: does not restate `LaunchOutcome`, the store and descriptor effect of a start; `Missions.Launch`, `Missions.LaunchBatch` and `Missions.StartOne` state it.
- MissionManager.Manager.Check: does not restate `LaunchOutcome`, the store and descriptor effect of a start; `Missions.Launch`, `Missions.LaunchBatch` and `Missions.StartOne` state it.
- MissionManager.ReconcileAll: removes the finished jobs after the pass rather than inside it. The resulting list is the same, since the pass runs over a copy.
- Missions.Mission: the settings fields are fixed when a job is made up. The code's reassignments right after `cp` (a sub-job's input folder, a batch job's folders) are folded into making the copy.
- CommandExecutor.Process: the descendants a kill enumerates are fixed when the process is made.
- Actions.DeleteMission: the single removal loop over each list is modelled as a removal pass and a separate kill pass. The resulting lists and kills are the same.
- The rest of `select_mission` is not modelled: the running-job override (clientui/actions.py:315-351), the output-file listing (262-296, whose count is a parameter), the durations and the sub-job text (414-470+).
- Removing the job folder, the Gradio cache files and the GPU cache in `delete_mission` (clientui/actions.py:197-235) is not modelled: these are filesystem and GPU side effects outside the scheduler's state.
- `get_mission_list`, `make_zip`, `refresh_mission_status`, `infer`, `is_admin`, `change_psw` and the login wrappers are not modelled: they are UI glue over the modelled operations.
- A corrupt `user.json` crashes start-up; the model takes a valid saved table.
- Client.UserTable.constructor: models the evidently intended start-up without a `user.json`. As written that start-up raises (see Findings), and `Client.StartUpAsWritten` models it.
- Missions.Mission.SettleDir: requires `outputFile` to be set, where clientui/mission.py:156 tests it. Both callers set it (clientui/actions.py:623, 720).
- MissionManager.Manager.Add: requires the job's `outputFile` to be set, for the same reason as `SettleDir`.
- Path normalisation is POSIX `/` joins only; `Path.resolve`, drive letters and case are not modelled.
- Presets and inference are opaque: a step's success is a boolean, a preset's step count is the length of its flow, and the per-stem storage dictionaries (including their KeyError) are not modelled.
- The worker's step-progress and final progress reports over `os.walk` (clientui/preset_infer_cli.py:232-241, 273-282) are not modelled.
- The part of `main_batch` after its skip check (clientui/preset_infer_cli.py:339-446) is not modelled.
- The preset version check and the missing-model log line do not change the run and are not modelled.
- PresetCli.ReportProgress: takes the progress store as importable. The branch where `task_progress` failed to import is not modelled.
- A file's existence is read from the listing of its folder.
- ModelCache.ModelManager.GetCacheInfo: returns the keys as a set, so their insertion order is not modelled.
- Loading a model with torch (building it, reading weights, `DataParallel`, moving it to the device) is the `load` parameter. The global `get_model_manager` wrappers (inference/model_manager.py:116-145) are not modelled.
- The i18n lookup of `detailed_error` is the `translate` parameter, and `get_language` (webui/utils.py:129-138) with the system locale is the `language` parameter.
- `str(v)` of scalar configuration values is given as text.
- The argument parser of the older worker (scripts/preset_infer_cli.py:176-199) is not modelled.
- Timestamps are integers rather than floats.
- TaskProgress.FormatDuration: models the unit choice and the amount, not the one-decimal rounding.
- `get_processing_duration` and its log parsing (clientui/task_progress.py:559-655) are not modelled.
- The eight-character uuid task ids are a `taskId` parameter.
- Actions.FallbackNotPersisted: requires that the folder has no cache entry, so that the lookup after the refused update cannot find a fresh cache entry.

## Findings

| source | as written | input that shows it | evidently intended | confidence | as-written member | corrected member |
|---|---|---|---|---|---|---|
| clientui/actions.py:304-313 | When a job has no progress record, the inferred fallback is passed to `update_progress`, which finds no record, returns False and writes nothing | a job folder without `progress.json` and with one or more output files | the fallback record is saved, so later views find it | not executed | Actions.NoRecordFallback, Actions.FallbackNotPersisted | Actions.NoRecordFallbackSaved, Actions.FallbackSavedFound |
| scripts/preset_infer_cli.py:127-132 | The last-step branch is tested before the one-step branch, so a one-step preset reads `TEMP_PATH/step_1_output`, which nothing has made, instead of its input folder | a preset with one step, run on the input folder `input` | a one-step preset reads its input folder, as `clientui/preset_infer_cli.py` does | not executed | ScriptsPresetCli.RouteStepsAsWritten, ScriptsPresetCli.OneStepReadsScratch, ScriptsPresetCli.RunMain | PresetCli.RouteSteps, PresetCli.FirstStepReadsPlan |
| client.py:11-16 | Without a `user.json`, line 14 calls the `add_user` of `clientui/actions.py`, whose `import client` (lines 91-92) meets a `client` module that has not yet defined `add_user` (line 22), so start-up raises AttributeError | a first start with no `user.json` | the administrator table is made and written out, so the admin can log in | not executed | Client.StartUpAsWritten, Client.FreshInstallAsWritten | Client.UserTable.constructor, Client.AdminTable, Client.FreshAdminLogsIn |
