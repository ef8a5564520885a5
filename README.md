# noclaw core, modelled in Dafny

noclaw is a personal assistant server that runs each request in a sandboxed worker
container. This project models the parts of it that decide things:

- **Security** — the container path policy (`server/security.py`): the workspace
  root under `DATA_DIR/workspaces`, the nine blocked patterns, workspace and extra-mount
  validation, and loading extra mounts from a workspace's `config.json`. A path has two
  views: a sequence of components for the "under the root" test, because `relative_to`
  compares whole components, and the `/`-joined string for the blocked-pattern substring
  test. Resolving, `expanduser` (which may raise), `exists` and `os.access` are oracles over an abstract
  filesystem (`Security.FileSystem`).
- **ContainerRunner** — the server side of the sandbox (`server/container_runner.py`):
  configuration defaults, runtime detection order, the `docker run` command line, how a
  container's outcome becomes a response record, and what `run` does to the workspace
  directory (`CLAUDE.md` written, sidecar removed) and to the host (the temporary input
  file created and removed, one command spawned). The container is a function parameter
  (`Sandbox`) from the command, the input document and the workspace files to an outcome and
  the files left behind.
- **Worker** — the worker inside the container (`worker/worker.py`): prompt assembly,
  `SCHEDULE:` and daily-reminder extraction, the model-hint map, folding the SDK's block
  stream into a reply, and the success/error records and sidecar file of `run`. The SDK
  is a function parameter (`Agent`) returning a message stream or an exception.
- **SimpleScheduler** — the in-memory task registry (`server/simple_scheduler.py`), a
  class whose `tasks` field is an insertion-ordered dictionary.
- **Heartbeat** — the heartbeat scheduler (`server/heartbeat.py`): the running flag, which
  users are due, the next sleep, row updates, one user's turn and one pass of the loop. The
  SQLite tables are fields of an in-memory `Database` class; timestamps are integer seconds.
  The clock is an input: `now` is the reading the selection uses, and `clock(k)` the later
  reading that turn `k` records.
  A pass is specified by `Heartbeat.Round`: the state of each workspace directory before
  each turn, and each turn's outcome, log entry and recorded check time.
- **Startup** — startup validation (`server/startup.py`): version comparison, runtime
  probe, token masking, disk thresholds, dependency checks, and the error/warning
  accumulation of `validate_all`, with each probe's observation passed in.

`Prelude` holds the shared vocabulary: `Option`, `Result` over the Python exceptions
the code raises, a JSON value whose objects keep insertion order (dictionary semantics
through `Get`/`Put`), files, a workspace `Directory` class, and `int()`/`str()` on
integers. `Strings` holds the string operations the code uses (`in`, `strip`, `lower`,
`split`, `join`, slicing). A Python exception is a `Failure` value, and an exception
that the code catches is modelled as the branch that catches it.

One consequence of the code as written: `SCHEDULE:` lines split off the cron expression
at the first space, so a marker task's `cron` never contains a space
(`Worker.MarkerTaskShape`, `Worker.MarkerCronsHaveNoSpace`). A five-field expression
such as `0 9 * * *` after the marker therefore yields cron `0`, and the other fields
begin the prompt. The model keeps this behaviour.

## Model

| member | source | states |
|---|---|---|
| Security.NewPolicy | server/security.py:50-58 | the data directory is the non-empty argument, else `$DATA_DIR`, else `data`, made absolute; the workspace root is its `workspaces` child |
| Security.FirstMatch | server/security.py:84-91 | no pattern is reported iff none occurs in the path string; a reported pattern occurs, and no earlier pattern in the list does |
| Security.FirstBlocked | server/security.py:38-48 | a path string is free of blocked patterns iff none of the nine occurs in it; a reported pattern is one of the nine and occurs |
| Security.ValidateWorkspaceIff | server/security.py:62-106 | a workspace is accepted iff both it and the root resolve, the resolved workspace is component-wise under the resolved root, and its string has no blocked pattern; only a non-ValueError from resolving escapes as an exception |
| Security.RootIsUnderItself | server/security.py:76-80 | the workspace root counts as under itself |
| Security.SiblingWithCommonPrefixIsNotUnder | server/security.py:76-80 | `data/workspaces2` is not under `data/workspaces`, although the string of the second is a prefix of the first |
| Security.BlockedDirectoryUnderRootRejected | server/security.py:83-91 | a user directory under the root whose last component is a blocked pattern is rejected |
| Security.ValidateAdditionalMountIff | server/security.py:108-154 | an extra mount is accepted iff it resolves, has no blocked pattern, exists and is readable, with no requirement to be under the root; a blocked pattern is reported before a missing path |
| Security.ScanEntries | server/security.py:185-205 | a successful scan keeps at most as many mounts as entries were declared |
| Security.MountsFromConfig | server/security.py:177-179 | with no `config.json` in the workspace there are no extra mounts |
| Security.LoadedMountsIff | server/security.py:177-209 | a mount is loaded iff `config.json` is a readable object declaring an `additional_mounts` list, no entry of it raises (including a `~user` that `expanduser` cannot expand), and some entry passes validation and yields that mount |
| Security.LoadAdditionalMounts | server/security.py:156-209 | the appending loop returns exactly the mounts the configuration declares and validation keeps |
| Security.ScanConcat | server/security.py:186-198 | scanning two runs of entries one after the other keeps the first run's mounts followed by the second's, and fails if either fails |
| Security.ScanFailsIffSomeEntryRaises | server/security.py:186-209 | loading discards everything iff some entry raises |
| Security.EntryRaisesIff | server/security.py:186-194 | an entry raises iff it is not a dict, has a missing or non-string `host`, `expanduser` raises RuntimeError on it, or it has an accepted host and no `container` |
| Security.ExpansionFailureDiscardsAll | server/security.py:186-209 | one host that `expanduser` cannot expand empties the whole result, whatever the other entries are |
| Security.ScanKeepsAcceptedEntries | server/security.py:186-198 | a mount is loaded iff some declared entry validates and produces it; rejected entries are skipped, not fatal |
| Security.KeptEntryFields | server/security.py:187-194 | a kept entry has a string host whose expansion succeeds and validates; the record holds that host made absolute, `container` copied verbatim, and `readonly` copied, defaulting to true |
| Security.SingleDeclarationLoads | server/security.py:177-205 | a config declaring one valid mount loads exactly that mount record |
| ContainerRunner.DetectionOrder | server/container_runner.py:51-66 | docker is chosen iff its probe exits 0; podman only after docker is passed over; with both passed over, RuntimeError; any other probe exception escapes |
| ContainerRunner.DetectRuntime | server/container_runner.py:51-66 | the probing loop returns the first candidate that exits 0, in the order docker then podman |
| ContainerRunner.NewRunner | server/container_runner.py:24-47 | construction applies the settings rules and then runtime detection, failing with detection's error |
| ContainerRunner.DefaultSettings | server/container_runner.py:38-44 | with no arguments and no environment the runner uses `noclaw-worker:latest`, 120 s, `1g`, `1.0` |
| ContainerRunner.ArgumentsWin | server/container_runner.py:39-42 | truthy constructor arguments override the environment and the defaults |
| ContainerRunner.UnreadableTimeoutFails | server/container_runner.py:40 | a non-numeric `CONTAINER_TIMEOUT` with no timeout argument makes construction raise ValueError |
| ContainerRunner.EnvironmentTimeout | server/container_runner.py:40 | a numeric `CONTAINER_TIMEOUT` becomes the timeout |
| ContainerRunner.ParseDefaultTimeout | server/container_runner.py:40 | the default timeout text `120` reads as 120 |
| ContainerRunner.MountArgs | server/container_runner.py:187-192 | each loaded mount contributes exactly two arguments |
| ContainerRunner.MountArgsAt | server/container_runner.py:188-192 | the k-th mount's arguments are `-v` and its `host:container:mode` spec, in load order |
| ContainerRunner.MountArgsSnoc | server/container_runner.py:188-192 | one more mount appends exactly `-v` and its spec |
| ContainerRunner.VolumeArgs | server/container_runner.py:186-195 | the extending loop produces the mount arguments of all mounts in order |
| ContainerRunner.BuildCommand | server/container_runner.py:166-215 | the built command is the fixed prefix, then the arguments of the mounts loaded from the workspace configuration, then the credential, then the entrypoint |
| ContainerRunner.CommandLayout | server/container_runner.py:168-213 | the command starts with the exact thirteen hardening and mount arguments, has each mount's `-v` pair at its position, then the credential arguments, and ends with `[image, "python3", "/app/worker.py"]` |
| ContainerRunner.CredentialChoice | server/container_runner.py:197-207 | at most one `-e` credential; the non-empty OAuth token wins, else the non-empty API key; none iff both are empty or unset |
| ContainerRunner.ModeFollowsReadonly | server/container_runner.py:189-191 | the mode is `ro` iff `readonly` is truthy, else `rw` |
| ContainerRunner.ParseOutput | server/container_runner.py:135-145 | output that does not parse yields an object carrying the raw output, instead of raising |
| ContainerRunner.FailedExitRecord | server/container_runner.py:244-256 | for a `json` that round-trips every value whose objects have distinct keys, a non-zero exit yields an object with the exit-code message, stderr or `Unknown error`, stdout verbatim and the exit code |
| ContainerRunner.TimeoutRecord | server/container_runner.py:264-278 | for such a `json`, a timeout yields an object with error `timeout` and a message naming the timeout |
| ContainerRunner.CrashRecord | server/container_runner.py:280-285 | for such a `json`, any other exception yields an object with `Container execution failed` and the exception text |
| ContainerRunner.CleanExitOutput | server/container_runner.py:258-262 | a clean exit passes stdout through; it is the parsed document when it parses, else the invalid-output record |
| ContainerRunner.WithTasks | server/container_runner.py:152-153 | storing the tasks sets `scheduled_tasks` and leaves every other key of the output; a non-dict output raises TypeError |
| ContainerRunner.SidecarReplacesTasks | server/container_runner.py:147-158 | a sidecar object with `scheduled_tasks` replaces the output's tasks and nothing else |
| ContainerRunner.SidecarWithoutTasksKeepsOutput | server/container_runner.py:147-158 | no sidecar, an unreadable or unparsable one, or one without the key leaves the output unchanged |
| ContainerRunner.SidecarFailureCauses | server/container_runner.py:149-158 | the merge can fail only with a TypeError, from a parsed sidecar or an output that is not a dict |
| ContainerRunner.RejectedWorkspaceRaises | server/container_runner.py:86-99 | a workspace the policy rejects raises ValueError with the rejection message naming the workspace and the root |
| ContainerRunner.UndecidedWorkspaceRaises | server/container_runner.py:86-99 | an exception from validation propagates from `run` |
| ContainerRunner.AdmittedIff | server/container_runner.py:82-106 | `run` gets past the checks iff the workspace is a string the policy accepts and `claude_md` is a string, and it uses those two values |
| ContainerRunner.InputRecordFields | server/container_runner.py:108-114 | the input file holds exactly prompt, extra context, user and history, with their defaults, and no model hint |
| ContainerRunner.Run | server/container_runner.py:68-164 | a refusal changes neither the workspace nor the host and spawns nothing; an OSError from creating the workspace changes nothing either; one from writing `CLAUDE.md` leaves the workspace created and its files as they were, with no temp file and no spawn; otherwise an admitted run writes `CLAUDE.md`; a prompt the log line cannot slice then raises TypeError, spawns nothing and leaves the sidecar; otherwise it spawns exactly the built command once, leaves no sidecar, and returns the merged output; no temp file remains in any case |
| ContainerRunner.Execute | server/container_runner.py:104-164 | after admission: an OSError from writing `CLAUDE.md` ends the run with nothing changed; otherwise `CLAUDE.md` is written and the temp input file is created and removed; a prompt that is neither a string nor a list raises TypeError at the log line before anything is launched; otherwise one command is launched, the sidecar is removed, and the result is the merged output |
| ContainerRunner.AnnouncedFailsIff | server/container_runner.py:129 | `prompt[:50]` raises iff the prompt is neither a string nor a list, and then raises TypeError (the Python 3.9 to 3.11 behaviour for a dict); a string prompt gives its first 50 characters |
| Worker.ContextLines | worker/worker.py:210 | one `k: v` line per context entry |
| Worker.EnhancePrompt | worker/worker.py:191-213 | the appending procedure yields the specified prompt, or the exception a malformed history or context raises |
| Worker.AssembleParts | worker/worker.py:193-211 | the parts are built in the order user line, history block, prompt, context |
| Worker.RenderHistory | worker/worker.py:198-205 | the history block loop matches the header/entries/blank-line specification |
| Worker.RenderEntries | worker/worker.py:201-204 | the entry loop matches the per-entry lines, stopping at the first failing entry |
| Worker.HistoryLinesStep | worker/worker.py:201-204 | rendering one more entry appends its lines or fails with its error |
| Worker.HistoryLinesStop | worker/worker.py:201-204 | an entry that raises makes the whole history raise with that error |
| Worker.EntryWithResponse | worker/worker.py:202-204 | an entry with a non-empty response renders as its user line and `  Assistant: ` plus the first 200 characters |
| Worker.PlainEntryLine | worker/worker.py:202-204 | an entry without a truthy response renders as its user line only |
| Worker.PlainLines | worker/worker.py:201-204 | entries without responses render one `  User: ` line each, in order |
| Worker.HistoryLinesSucceedIff | worker/worker.py:201-204 | the entries render iff each of them renders |
| Worker.HistoryLinesConcat | worker/worker.py:201-204 | rendered entries give each entry's own lines, one entry after another, in iteration order |
| Worker.HistoryOldestFirst | worker/worker.py:199-205 | a list history renders iff every entry does; an empty one gives no lines; any other gives the header, then each entry's lines (its user line, and its assistant line when it has a response) in reverse input order, then an empty line |
| Worker.UserLineFirst | worker/worker.py:195-196 | a known user's `[User: u]` line comes first; for an unknown user with no history the prompt comes first |
| Worker.PromptPlacement | worker/worker.py:207-213 | the prompt follows the user line and history; a non-empty context adds exactly one `\nContext:\n` part after it; with nothing else the result is the prompt |
| Worker.ExtractScheduledTasks | worker/worker.py:215-251 | the extraction procedure returns the marker tasks in line order followed by the daily reminder when it fires |
| Worker.ScanMarkers | worker/worker.py:227-237 | the line loop yields one task per qualifying marker line, in order |
| Worker.MarkerTaskShape | worker/worker.py:229-237 | a line yields a task iff its stripped form starts with `SCHEDULE:` and the remainder has two fields; `cron` is the first space-free token, `prompt` the rest, `description` its first 50 characters |
| Worker.MarkerTasksConcat | worker/worker.py:227-237 | the tasks of two runs of lines are the tasks of the first run then those of the second |
| Worker.MarkerTasksFromLines | worker/worker.py:228-237 | every marker task comes from some line of the response |
| Worker.MarkerCronsHaveNoSpace | worker/worker.py:231-234 | no marker task's cron contains a space |
| Worker.ReminderIsLastAndUnique | worker/worker.py:239-249 | the reminder fires iff the last task is the 9am daily task, and any task with cron `0 9 * * *` is that last one |
| Worker.ReminderAfter | worker/worker.py:239-249 | appending the reminder to space-free marker tasks puts it last and nowhere else |
| Worker.ReminderIgnoresCase | worker/worker.py:240-244 | the reminder rule ignores letter case |
| Worker.ModelId | worker/worker.py:64-72 | haiku, sonnet and opus map case-insensitively to their fixed model ids; any other hint maps to none |
| Worker.ModelHintMapping | worker/worker.py:64-72 | a missing hint or an unknown one leaves the model `auto`; the mapping depends only on the lower-cased hint |
| Worker.FoldReply | worker/worker.py:77-104 | the message loop yields the text blocks concatenated in order, then the tool markers, with the default text only when both are empty |
| Worker.FoldBlocks | worker/worker.py:86-93 | the block loop concatenates text blocks and collects one `[Tool: name]` per tool-use block |
| Worker.ReplyTextConcat | worker/worker.py:84-88 | the text of two message runs is the first run's text followed by the second's |
| Worker.ReplyToolsConcat | worker/worker.py:84-90 | the tool markers of two runs are the first run's followed by the second's |
| Worker.FallbackOnlyWhenEmpty | worker/worker.py:98-104 | the default reply appears exactly when there is no text and no tool use; tool markers follow the text after a blank line |
| Worker.MemoryOnlyWhenNonEmpty | worker/worker.py:126-138 | memory is appended under `## Remembered Facts` only when its stripped text is non-empty |
| Worker.SuccessRecordAgrees | worker/worker.py:158-171 | the success record's tasks equal the sidecar's tasks, with `success` true and the reply as response |
| Worker.ErrorRecordShape | worker/worker.py:173-189 | the error record has `success` false, a response starting `Error executing request: ` and no tasks |
| Worker.Run | worker/worker.py:109-189 | on success the workspace gains exactly the sidecar `{"scheduled_tasks": tasks}` and the record carries the same tasks; on an SDK exception no sidecar is written and the error record is returned; a failed read or prompt assembly raises and writes nothing |
| Worker.Respond | worker/worker.py:144-189 | the guarded part of `run`: an SDK exception gives the error record and leaves the files; success writes the sidecar and gives the success record |
| SimpleScheduler.Delete | server/simple_scheduler.py:43-47 | deleting keeps only existing entries, none with the deleted key |
| SimpleScheduler.DeleteLookup | server/simple_scheduler.py:43-47 | after deletion the key is absent and every other key maps as before |
| SimpleScheduler.PutInPlace | server/simple_scheduler.py:30 | overwriting an existing key keeps the dictionary's size and key order |
| SimpleScheduler.UserTasks | server/simple_scheduler.py:49-53 | the listed tasks are exactly the stored tasks whose `user` equals the given user, each as often as it is stored |
| SimpleScheduler.UserTasksConcat | server/simple_scheduler.py:49-53 | the listing keeps the order of the stored tasks |
| SimpleScheduler.CronRecordFields | server/simple_scheduler.py:34-41 | a cron record has exactly the fields user, cron, prompt, description, and belongs to its user |
| SimpleScheduler.AddedCronTaskListed | server/simple_scheduler.py:34-53 | after storing a cron record for a user, listing that user's tasks includes it |
| SimpleScheduler.NextRunSaysNotSupported | server/simple_scheduler.py:55-56 | the next-run message says "not supported", case-insensitively |
| SimpleScheduler.Scheduler.constructor | server/simple_scheduler.py:18-20 | a new scheduler has no tasks |
| SimpleScheduler.Scheduler.Start | server/simple_scheduler.py:22-23 | starting does not change the tasks |
| SimpleScheduler.Scheduler.Stop | server/simple_scheduler.py:25-26 | stopping does not change the tasks |
| SimpleScheduler.Scheduler.AddTask | server/simple_scheduler.py:28-32 | the returned id maps to the task, every other id is unchanged, and a fresh id is appended at the end |
| SimpleScheduler.Scheduler.AddCronTask | server/simple_scheduler.py:34-41 | stores the four-field record under the returned id, and the user's listing then contains it |
| SimpleScheduler.Scheduler.RemoveTask | server/simple_scheduler.py:43-47 | returns true iff the id was present; afterwards it is absent and every other entry is unchanged, so a second removal returns false |
| SimpleScheduler.Scheduler.GetNextRun | server/simple_scheduler.py:55-56 | always the same message, which says "not supported" |
| Heartbeat.DueUsersIff | server/heartbeat.py:110-132 | a user is selected with an interval iff one of their rows is enabled, is due (never checked, or now at least last plus the effective interval), and has that effective interval |
| Heartbeat.DueUsersHaveRows | server/heartbeat.py:118-132 | every selected user has a row in the table |
| Heartbeat.NextSleep | server/heartbeat.py:82-85 | the sleep is the smallest interval among due users, or the default when none is due |
| Heartbeat.UpdateWhere | server/heartbeat.py:273-278 | an update changes exactly the named user's rows and keeps the table's length and order |
| Heartbeat.EnableDisableRows | server/heartbeat.py:263-306 | enabling sets the flag to 1 and the interval; disabling sets it to 0 and keeps the interval; other users' rows are unchanged |
| Heartbeat.EnabledIsDue | server/heartbeat.py:263-278 | a user enabled before any heartbeat is due at once, with the stored interval or the default when it is 0 |
| Heartbeat.DisabledIsNotDue | server/heartbeat.py:287-299 | a disabled user is never selected |
| Heartbeat.CheckedDueAgainAfterInterval | server/heartbeat.py:242-256 | right after a check a user is due again exactly once the effective interval has passed |
| Heartbeat.DefaultChecklistContents | server/heartbeat.py:200-219 | the default checklist names its user, has its header and contains `HEARTBEAT_OK` |
| Heartbeat.PromptContents | server/heartbeat.py:161-171 | the heartbeat prompt contains the whole checklist and `HEARTBEAT_OK` |
| Heartbeat.Classify | server/heartbeat.py:189-193 | a string response is OK iff it contains `HEARTBEAT_OK`, and an alert otherwise |
| Heartbeat.HeartbeatScheduler.constructor | server/heartbeat.py:30-41 | a new scheduler is not running and has no loop task |
| Heartbeat.HeartbeatScheduler.WithDefaults | server/heartbeat.py:30 | the default interval is 1800 seconds |
| Heartbeat.HeartbeatScheduler.Start | server/heartbeat.py:45-53 | starting while running changes nothing; otherwise it sets `running` and creates the loop task |
| Heartbeat.HeartbeatScheduler.Stop | server/heartbeat.py:55-64 | stopping clears `running` and cancels an existing loop task |
| Heartbeat.HeartbeatScheduler.GetUsersForHeartbeat | server/heartbeat.py:95-137 | the row loop returns the due enabled users in table order, or nothing when the database fails |
| Heartbeat.HeartbeatScheduler.CreateDefaultHeartbeat | server/heartbeat.py:200-220 | writes the default checklist as `HEARTBEAT.md`, or raises OSError when the workspace is missing |
| Heartbeat.HeartbeatScheduler.LogHeartbeat | server/heartbeat.py:222-240 | appends exactly one log entry holding the response when the database is reachable and can bind it (a string, a boolean, None or a 64-bit integer); a list, a dict or a wider integer makes the insert fail, and nothing is appended |
| Heartbeat.HeartbeatScheduler.UpdateLastHeartbeat | server/heartbeat.py:242-261 | sets the user's last heartbeat to now and changes nothing else |
| Heartbeat.HeartbeatScheduler.EnableForUser | server/heartbeat.py:263-285 | the user's rows get flag 1 and the given interval, or the default when none or 0 is given |
| Heartbeat.HeartbeatScheduler.DisableForUser | server/heartbeat.py:287-306 | the user's rows get flag 0 |
| Heartbeat.HeartbeatScheduler.RunHeartbeatForUser | server/heartbeat.py:139-198 | the checklist is created when missing; a successful turn logs one entry and then records the check time, and is classified by `HEARTBEAT_OK`; a failed turn logs nothing and changes no row |
| Heartbeat.HeartbeatScheduler.TakeTurn | server/heartbeat.py:76-79 | one turn of the loop has the outcome of the user's turn on the workspace as earlier turns left it, appends that turn's log entry, and records that turn's own clock reading on the user's rows when the turn got a reply |
| Heartbeat.HeartbeatScheduler.PlayRound | server/heartbeat.py:75-79 | the loop plays every turn of the pass in order: its outcomes, its log and the table are those of the pass's turns, and each workspace ends in the state its turns leave |
| Heartbeat.HeartbeatScheduler.RunTurns | server/heartbeat.py:75-79 | every selected user gets a turn in order, on the workspace as the earlier turns left it, whatever those turns returned; each turn's outcome is what `_run_heartbeat_for_user` gives; the log grows by exactly one entry per storable reply, in turn order; with the database online every row of a user whose turn got a reply holds the clock reading of that user's last replying turn, and all other rows are unchanged; settings never change |
| Heartbeat.HeartbeatScheduler.Pass | server/heartbeat.py:70-86 | one pass selects the users due at the clock reading taken for the selection, runs their turns with exactly the effects stated for the turn loop (each replying turn records its own later reading), and then sleeps for the smallest due interval, or the default |
| Heartbeat.RepeatedTurn | server/heartbeat.py:152-158 | a second turn on a workspace its user's turn already prepared finds the same checklist, so it has the same outcome and response and writes nothing more |
| Heartbeat.OwnWorkspaceTurn | server/heartbeat.py:75-79 | when no other user's turn shares its workspace, a turn's outcome and response are those on the workspace as the pass found it, whatever earlier turns returned |
| Heartbeat.RowAfterRecorded | server/heartbeat.py:244-253 | after the turns of a pass, a row keeps its settings; if a turn of its user got a reply with the database online, `last_heartbeat` is the clock reading of the last such turn, and otherwise the row is unchanged |
| Heartbeat.HintRejectedRecordsNothing | server/heartbeat.py:175-179 | with `process_message` as declared, which rejects `model_hint`, no turn gets a reply, the log gets nothing and no row changes, so every selected user stays due |
| Heartbeat.RecordedStep | server/heartbeat.py:174-187 | after one more turn a user's check is recorded iff it was before or this turn is theirs and got a reply |
| Heartbeat.CheckedSameSettings | server/heartbeat.py:242-256 | recording check times never changes who is enabled or their interval |
| Startup.VersionAtLeast | server/startup.py:86 | the tuple comparison with (3, 9) is the lexicographic one on major then minor |
| Startup.CheckPythonVersion | server/startup.py:83-89 | the check passes iff the version is 3.9 or later |
| Startup.VersionTokenIsThirdWord | server/startup.py:102 | the reported version is the third whitespace token of the output, or `unknown` |
| Startup.DockerBeforePodman | server/startup.py:91-110 | docker is reported when its probe exits 0; podman only otherwise; with neither the check fails with the install message |
| Startup.CheckContainerRuntime | server/startup.py:91-110 | the probing loop returns the first runtime that answers with exit 0, with its version |
| Startup.Mask | server/startup.py:118 | a token longer than 14 characters shows its first 10 and last 4 around `...` (17 characters); a shorter one is `***` |
| Startup.MaskRevealsAtMost14 | server/startup.py:118 | at most 14 token characters are ever shown |
| Startup.CheckClaudeAuth | server/startup.py:112-121 | the auth check passes iff the OAuth token or the API key is non-empty |
| Startup.AuthMatchesCredential | server/startup.py:114-116 | the check passes exactly when the container command gets a credential, and it masks the credential that the command passes |
| Startup.CheckDatabase | server/startup.py:123-137 | the database check passes iff creating, writing and removing the test file raise nothing |
| Startup.DiskThresholds | server/startup.py:139-155 | below 1 GiB fails; 1 to 4 GiB passes with exactly one warning; 5 GiB or more, or an error, passes with none |
| Startup.MissingOfIff | server/startup.py:175-185 | a dependency is reported missing iff it is listed and its import fails |
| Startup.CollectMissing | server/startup.py:175-185 | the import loop collects the missing dependencies in order, or lets a non-ImportError escape |
| Startup.FailureStays | server/startup.py:175-179 | an import that raises something other than ImportError stops the check with that error |
| Startup.DepsVerdict | server/startup.py:157-194 | the check fails iff a critical import fails; missing only optional ones passes with exactly one warning |
| Startup.NoRaiseNoFailure | server/startup.py:175-185 | if no import raises anything else, the dependency check returns normally |
| Startup.ErrorLines | server/startup.py:49-59 | a check adds an error line iff it returned false or raised |
| Startup.NoErrorsIff | server/startup.py:49-59 | no error lines accumulate iff every check returned true |
| Startup.StartupValidator.constructor | server/startup.py:25-27 | a new validator has no errors and no warnings |
| Startup.StartupValidator.CheckDiskSpace | server/startup.py:139-155 | the disk check returns the threshold verdict and appends its warning, if any |
| Startup.StartupValidator.CheckDependencies | server/startup.py:157-194 | the dependency check returns the verdict and appends its warning, if any |
| Startup.StartupValidator.RunCheck | server/startup.py:40-51 | the i-th check returns its outcome and appends only its own warnings |
| Startup.StartupValidator.Check | server/startup.py:49-59 | one round appends `name: message` for a failing or raising check and nothing for a passing one |
| Startup.StartupValidator.ValidateAll | server/startup.py:29-81 | the check loop appends errors in check order, collects the warnings, and returns true iff there are no errors; warnings never change the result |
| Startup.ValidationPassesIff | server/startup.py:63-81 | validation passes iff every one of the six checks returned true without raising |

## Left out

- Process execution in `_execute_container` (server/container_runner.py:217-243, 264-273): the spawn, `wait_for`, terminate, the five-second grace, kill and elapsed-time logging are timing behaviour. The model keeps only the outcome (exit code with stdout and stderr, timeout, exception) and the record it becomes.
- `LocalContainerRunner` (server/container_runner.py:288-352) is not part of this model: it uses symlinks under `/tmp`, changes `sys.path` and imports the worker in-process. It also never calls `validate_workspace`.
- The Claude Agent SDK (worker/worker.py:41-96) is a foreign library. The model takes the message stream it would produce as input (`Worker.Agent`). The worker's `main` (worker/worker.py:256-284) is stdin/stdout/exit-code I/O and is left out.
- Real filesystem semantics: symlinks, `resolve`, `expanduser`, `exists` and `os.access` are oracles; `expanduser` may fail, and which `~user` forms fail is left to the oracle. Temp-file naming is an input path assumed fresh. `uuid4` is an input id.
- File contents are text or unreadable (`Prelude.File`). A file whose bytes are not valid UTF-8 is not modelled: `read_text` raises UnicodeDecodeError, a ValueError. For the sidecar (server/container_runner.py:149-156) that error is not among the caught `JSONDecodeError` and `OSError` and escapes `run`; for `HEARTBEAT.md` (server/heartbeat.py:152-158) the loop catches it. The model never produces it.
- ContainerRunner.Run: `mkdir` and the `CLAUDE.md` write are modelled as failing before they change anything (`ContainerRunner.DiskFaults`). A `mkdir` that creates some parents before failing, or a write that truncates `CLAUDE.md` and then fails, is not modelled.
- ContainerRunner.AnnouncedFailsIff: slicing a dict raises TypeError up to Python 3.11, and the model follows that. From Python 3.12 the same slice raises KeyError, so there `Run` and `Execute` return KeyError for a dict prompt, and `Heartbeat.Classify` sees KeyError for a dict response.
- SimpleScheduler.Scheduler.AddTask: the new id is a parameter, because `uuid4` is random. The contract covers a colliding id too, so it does not state the freshness that `uuid4` gives in practice.
- JSON encoding and decoding are oracles (`Prelude.JsonLib`). The outcome-record lemmas assume that parsing what `json.dumps` wrote gives back every value whose objects have distinct keys (`ContainerRunner.Lossless`), which the envelope records are. Floats and the exact text of `JSONDecodeError` messages are not modelled.
- Worker.Run: an OSError from writing the sidecar, which the source catches inside its `try`, is not modelled. The workspace write always succeeds in the model.
- Heartbeat: the asyncio loop, its sleeps, the 60-second back-off and ISO-8601 timestamps are left out; timestamps are integer seconds. A malformed stored timestamp, which would abort the row scan partway, is therefore not modelled.
- Heartbeat: the user's workspace comes from `get_user_context`, which is not part of this model; it is a map from user to workspace directory. The call passes `model_hint` to `process_message` (server/heartbeat.py:175-179), which that function's signature in `server/assistant.py` does not accept (see "## Findings"). The model treats `process_message` as a parameter that receives the hint.
- server/context_manager.py, server/dashboard.py, server/assistant.py, server/logger.py and run_assistant.py are not part of this model: they are persistence, UI, HTTP orchestration, logging and process launch.
- Startup: the probes (subprocess, `sys.version_info`, `shutil.disk_usage`, `__import__`, the test-file write) are observations passed in. `check_worker_image` is left out because `validate_all` does not call it. The console output of `validate_all` is left out.
- Logging is left out where it has no effect on results. Two log lines evaluate a slice of a value that may not be a string: `prompt[:50]` (server/container_runner.py:129) and `response[:100]` (server/heartbeat.py:193). The exception each can raise is modelled (`ContainerRunner.Announced`, `Heartbeat.Classify`).
- Security.LoadAdditionalMounts: no separate lemma states that two loads agree. The loader is a function of the configuration text and the filesystem oracle, which it only reads, so two loads over the same inputs agree by construction.
- Prelude.JsonLib: `loads` is an oracle that may return an object with a repeated key. `json.loads` keeps the last value of a repeated key, while `Get` reads the first, so such an object is read differently. `Prelude.UniqueKeys` names objects with distinct keys, and `ContainerRunner.Lossless` asks for the round trip only on those; elsewhere the model does not require `loads` to return such objects.
- Prelude.ParseInt: Python's `int()` also accepts underscore digit separators (`1_000`) and non-ASCII decimal digits. The model rejects both, so `CONTAINER_TIMEOUT=1_000` gives ValueError here and 1000 in the source.
- Startup.CheckDatabase: the message `Writable at {data_dir}` prints `str(Path(...))`, which normalises the text (`data/` becomes `data`, an empty value becomes `.`). The model prints the raw `DATA_DIR` text.
- Strings.Lower and Strings.IsSpace cover ASCII only, not Python's full Unicode case mapping and whitespace.

## Findings

| source | as written | input that shows it | evidently intended | confidence | as-written member | corrected member |
|---|---|---|---|---|---|---|
| server/heartbeat.py:175-179 | the turn calls `process_message(..., model_hint="haiku")`, but `process_message` (server/assistant.py:75-77) has no `model_hint` parameter, so every call raises TypeError, which the turn's `try` catches | any due user whose `HEARTBEAT.md` is readable | the check runs with the Haiku hint, its reply is logged and the check time is recorded | not executed | Heartbeat.HintRejectedRecordsNothing | Heartbeat.HeartbeatScheduler.RunTurns |
