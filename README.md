# claude-workers, modelled in Dafny

claude-workers runs autonomous coding agents as "workers". Each worker has a
home directory under `~/workers/<id>`. A worker's current assignment is a
`task.json` record holding the repository, the issue, the prompt, the pid of
the agent process and its start time. A worker is

- **idle** when it has no readable record,
- **busy** when the record's pid is a running process,
- **crashed** otherwise.

The commands move workers between these states:

- `dispatch` writes a fresh record after spawning the agent, and labels the
  issue `worker:<id>` on GitHub;
- `restart` respawns a crashed worker on its record;
- `stop` signals the process, first SIGTERM, then SIGKILL;
- `reset` kills the process if forced, moves the record into `completed/`
  and removes the label;
- `assign` and `poll` pick an idle worker and dispatch it;
- `watch` polls until a worker is no longer busy;
- `status` and `history` report on the workers;
- `inspect` shows the last tool calls and texts of a worker's conversation
  log.

The model keeps the whole persistent state in one value, `Host.World`:

- the listing of the workers root;
- the task files by worker;
- the `completed/` entries by worker;
- the set of live pids;
- a trace of outward effects (`gh` calls, spawns, signals, stdin reads,
  record writes, archive moves).

`Host.Host` is a class with the same fields. Every command that changes
state is a method on a `Host`. Its `modifies` clause names the fields it may
change. Its ensures clause states that the result and the new state equal a
specification function of the old state, `DispatchSpec`, `ResetSpec` and so
on. The properties are lemmas about these specification functions.

Commands that only report are methods that return their output. Each is
proved equal to a specification function: `WatchSpec`, `StatusSpec`,
`HistorySpec`, `InspectSpec`. Loops in the source (`findIdleWorker`, the
status and history loops, `processLine`) are loops with invariants here.

What the code takes from outside is a parameter of the model:

- the answers of `gh`, as a `GhReply` holding the exit status and the parsed
  JSON;
- standard input: whether it is a terminal, and its text;
- the pid a spawn returns, none when the spawn fails;
- the clock;
- whether SIGTERM was honoured within the wait;
- whether a rename succeeds;
- the successive states `watch` observes;
- the parsing and formatting of dates.

JavaScript semantics are written out in module `Js`:

- truthiness of possibly-undefined numbers and strings (0 and "" are falsy);
- `parseInt` prefix reading, with NaN as `None`;
- `trim`;
- `slice` with negative and clamped indices;
- `replace` of the first occurrence versus a global regular expression;
- `join`;
- `String(n)`;
- `${undefined}`, which prints "undefined".

The code and its documentation disagree in three places, and the model
follows the code:

- `assign` has no reserve of idle workers, no bounded retry and no
  `skipStdin`;
- `poll` keeps no cache of PRs already reviewed;
- the command line has no `stop`, `reset` or `assign` case. These names fall
  through to "unknown command" with exit status 1 (`Cli.StopResetAssignAreUnknown`).

## Model

| member | source | states |
|---|---|---|
| Js.TrimStart | src/commands/dispatch.ts:31 | the result is a suffix of the input; everything dropped is white space; it starts with a non-blank or is empty |
| Js.TrimEnd | src/commands/dispatch.ts:31 | the result is a prefix of the input; everything dropped is white space; it ends with a non-blank or is empty |
| Js.TrimEmptyIffBlank | src/commands/dispatch.ts:31 | `trim` gives "" exactly when every character is white space or a line terminator |
| Js.TrimKeepsInner | src/commands/dispatch.ts:31 | text that starts and ends with non-blanks is unchanged by `trim` |
| Js.DigitPrefix | src/cli.ts:71 | the longest leading run of digits: a prefix, all digits, followed by a non-digit or the end |
| Js.NatToString | src/commands/dispatch.ts:109 | `String(n)` of a natural number is a non-empty run of digits without a leading zero |
| Js.IntToString | src/commands/dispatch.ts:109 | `String(n)` starts with '-' exactly for negative numbers, otherwise with a digit |
| Js.DigitsValueOfNatToString | src/cli.ts:72 | the digits of `String(n)` have the value `n` |
| Js.ParseIntOfIntToString | src/cli.ts:71-72 | `parseInt(String(n) + rest)` is `n` for any `rest` that does not start with a digit |
| Js.ParseIntNaN | src/cli.ts:71 | text starting with something other than a blank, a sign or a digit parses to NaN |
| Js.ParseIntReadsPrefix | src/cli.ts:71-72 | `parseInt("12abc")` is 12 |
| Js.IntToStringInjective | src/commands/poll.ts:59 | different numbers have different decimal texts |
| Js.IndexOf | src/commands/reset.ts:43 | the index of the first occurrence: in range, holding `c`, no `c` before it |
| Js.ReplaceAll | src/commands/reset.ts:42 | same length; exactly the characters of the set are replaced |
| Js.SliceFromNegative | src/commands/inspect.ts:156 | `slice(-k)` keeps the last `k` elements, or all when there are fewer; `slice(-0)` keeps everything |
| Sorting.InsertBy | src/lib/paths.ts:17 | insertion adds exactly one element to the multiset |
| Sorting.SortBy | src/commands/history.ts:64 | the sort is a permutation of its input |
| Sorting.InsertSorted | src/commands/history.ts:64 | inserting into a sorted sequence under a total preorder keeps it sorted |
| Sorting.SortSorted | src/commands/history.ts:64 | the sort's result is sorted under any total preorder |
| Sorting.SortStable | src/commands/history.ts:64 | the sort is stable: the elements ranked level with any element keep their order |
| Sorting.StrLeIsTotalPreorder | src/lib/paths.ts:17 | the character-code order of strings is total and transitive |
| Sorting.SortStringsCorrect | src/lib/paths.ts:17 | the default string `sort()` yields a sorted permutation |
| Paths.DirectoryNames | src/lib/paths.ts:15-16 | the names are exactly those of the directory entries, no more of them than entries |
| Paths.GetWorkerIds | src/lib/paths.ts:11-21 | no ids when the root cannot be read; otherwise exactly the subdirectory names, sorted, with multiplicity kept |
| Paths.GetTemplateDir | src/lib/paths.ts:39-46 | the worker's own template when it exists, else the generic "worker" template |
| Paths.WorkerPathsIdentify | src/lib/paths.ts:23-37 | for ids that are single path segments, the home, task path, completed dir and .claude dir each determine the worker id; distinct homes give distinct task paths |
| Paths.JoinCancels | src/lib/paths.ts:23-37 | joining the same single segment onto two directories gives equal paths only for equal directories |
| Tasks.ReadTask | src/lib/task.ts:13-22 | none exactly when the file is missing or does not parse; otherwise the parsed body |
| Tasks.WriteTask | src/lib/task.ts:24-27 | the worker's record reads back as the written task; other workers' records are unchanged |
| Tasks.GetWorkerStatus | src/lib/task.ts:41-53 | idle iff no task; busy iff a task whose truthy pid is live; crashed iff a task otherwise; the task is returned as read |
| Tasks.ZeroPidIsCrashed | src/lib/task.ts:48 | a record with a missing or zero pid is crashed whatever runs |
| Tasks.ExitMakesCrashed | src/lib/task.ts:48-52 | a busy worker whose process exits is crashed on the same record, with no write |
| Tasks.WriteRunningMakesBusy | src/lib/task.ts:48-49 | writing a record whose pid runs makes the worker busy with exactly that record |
| Tasks.RemoveMakesIdle | src/lib/task.ts:44-45 | removing the record makes the worker idle |
| Tasks.StatusIsPerWorker | src/lib/task.ts:41-53 | a worker's status depends only on its own record |
| Host.Payload | src/commands/poll.ts:21-31 | a failed `gh` call or unparseable output gives the empty list; otherwise the parsed list |
| Host.Put | src/commands/reset.ts:47 | moving into a directory adds the entry last, replaces any entry of the same name and keeps all others |
| Host.Host.WriteTask | src/lib/task.ts:24-27 | replaces the worker's task file and records the write |
| Host.Host.Spawn | src/commands/dispatch.ts:128-138 | the spawned pid, when there is one, becomes live; the spawn is recorded |
| Host.Host.Kill | src/commands/stop.ts:30-39 | the signal is recorded; the process is gone afterwards when it ends (always for SIGKILL) |
| Host.Host.RunGh | src/commands/dispatch.ts:97-113 | the `gh` call is recorded with its arguments |
| Host.Host.ReadStdin | src/commands/dispatch.ts:26-32 | returns the whole standard input and records that it was read |
| Host.Host.ArchiveTask | src/commands/reset.ts:47 | the record leaves the task store and enters `completed/` under the given name, with its body and mtime |
| Host.Host.RemoveTask | src/commands/reset.ts:52 | the record leaves the task store |
| Dispatch.WorkerLabel | src/commands/dispatch.ts:8-10 | the label is "worker:" followed by exactly the id |
| Dispatch.WithoutReserved | src/commands/dispatch.ts:14 | exactly the ids other than "vilicus" and "dispensator", no more than given, and still sorted when the input was |
| Dispatch.FirstIdleAmongIsFirst | src/commands/dispatch.ts:16-23 | none iff no id is idle; otherwise an idle id with every earlier id not idle |
| Dispatch.FirstIdleIsFirstIdleCandidate | src/commands/dispatch.ts:12-24 | `findIdleWorker` yields the first idle non-reserved worker in sorted order, one that exists, or none when there is none |
| Dispatch.FirstIdleIgnoresTrace | src/commands/dispatch.ts:12-24 | the choice depends on the listing, the records and the live pids only |
| Dispatch.FindIdleWorker | src/commands/dispatch.ts:12-24 | the loop with early return computes the first idle candidate |
| Dispatch.StdinPrompt | src/commands/dispatch.ts:78-81 | the trimmed input, or none exactly when it trims to "" |
| Dispatch.StdinPromptNoneIffBlank | src/commands/dispatch.ts:78-81 | stdin gives no prompt exactly when every character of it is blank |
| Dispatch.LabelIssue | src/commands/dispatch.ts:95-121 | creates the worker label and the pull-request label, then labels the issue: three `gh` calls in that order |
| Dispatch.ResolvePrompt | src/commands/dispatch.ts:76-81 | the given prompt, else stdin's when it is read; stdin is read only under the stdin rule |
| Dispatch.Launch | src/commands/dispatch.ts:76-152 | the state after the checks: stdin, labels and spawn, then the record write when the spawn gave a pid; a failed spawn aborts with no write |
| Dispatch.Dispatch | src/commands/dispatch.ts:34-159 | result and new state are those of `DispatchSpec`: false for a missing home or a busy worker, an abort for a failed spawn, true after the write |
| Dispatch.DispatchSucceedsIff | src/commands/dispatch.ts:43-152 | dispatch returns true iff the home exists, the worker is not busy and the spawn gave a pid; false iff the home is missing or the worker busy; it aborts iff the spawn failed |
| Dispatch.DispatchFailureChangesNothing | src/commands/dispatch.ts:44-65 | a refused dispatch leaves the world, trace included, unchanged |
| Dispatch.DispatchSpawnFailureWritesNothing | src/commands/dispatch.ts:123-152 | a failed spawn ends the process before `writeTask`: records, live pids, archive, listing and the worker's status are unchanged |
| Dispatch.DispatchReplacesRecord | src/commands/dispatch.ts:146-152 | a crashed record is overwritten whole: new repo, issue, prompt, child pid and start time, no error; other records, the archive and the listing are unchanged |
| Dispatch.DispatchNewEffects | src/commands/dispatch.ts:76-152 | the effects added are stdin read, label calls, spawn, write, in that order; the same without the write after a failed spawn; none when refused |
| Dispatch.DispatchSpawnsBeforeWrite | src/commands/dispatch.ts:123-152 | the spawn comes just before the only record write, which comes last and holds the child's pid; after a failed spawn the spawn is last and nothing is written |
| Dispatch.DispatchStdinRule | src/commands/dispatch.ts:76-81 | stdin is read iff dispatch gets past its checks without a prompt, without skipStdin, on a non-terminal; then the written record's prompt is stdin's |
| Dispatch.DispatchLabelsOnlyWithIssue | src/commands/dispatch.ts:94-121 | `gh` is called iff dispatch gets past its checks with a truthy issue, whether the spawn then fails or not |
| Dispatch.DispatchMakesBusy | src/commands/dispatch.ts:146-152 | with a non-zero child pid the worker is busy on the written record afterwards |
| Restart.Restart | src/commands/restart.ts:7-63 | exit status and new state are those of `RestartSpec`, which exits 1 without a write after a failed spawn |
| Restart.RestartOnlyWhenCrashed | src/commands/restart.ts:11-58 | restart returns normally iff the worker is crashed and the spawn gives a pid; otherwise exit 1 with no record written and no process started, and nothing at all unless crashed |
| Restart.RestartReplacesOnlyPid | src/commands/restart.ts:54-58 | the new record equals the old one except for the pid, the new child's; other records unchanged |
| Restart.RestartSpawnsBeforeWrite | src/commands/restart.ts:34-58 | the effects are exactly the spawn and then the write |
| Restart.RestartMakesBusy | src/commands/restart.ts:54-58 | with a non-zero child pid the worker is busy again on its task |
| Stop.Stop | src/commands/stop.ts:3-48 | exit status and new state are those of `StopSpec` |
| Stop.StopFailsWithoutPid | src/commands/stop.ts:6-14 | exit 1 iff no record or no truthy pid, else 0; the store, archive and listing are never touched |
| Stop.StopDeadProcessSendsNothing | src/commands/stop.ts:16-20 | a crashed worker gets no signal |
| Stop.StopEscalates | src/commands/stop.ts:29-43 | SIGTERM, then SIGKILL exactly when SIGTERM was not honoured; the process is gone and the worker crashed on its kept record |
| Reset.Reset | src/commands/reset.ts:9-70 | exit status and new state are those of `ResetSpec`, which archives the record only where the rename can work (the directory exists and the name holds no '/') and deletes it otherwise |
| Reset.ResetWithoutTaskIsNoop | src/commands/reset.ts:12-15 | without a record reset changes nothing and returns normally |
| Reset.ResetBusyNeedsForce | src/commands/reset.ts:18-32 | a busy worker without force gives exit 1 with nothing changed; with force SIGKILL is the first effect |
| Reset.ResetMakesIdle | src/commands/reset.ts:40-54 | after a normal return the record is gone and the worker idle; other records unchanged |
| Reset.ResetArchivesRecord | src/commands/reset.ts:40-54 | where the rename is allowed, an archive name without '/' files the record's file under that name and keeps older entries of other names; a name with '/' leaves the archive unchanged and the record is removed |
| Reset.ResetUnlabelsOnlyWithIssue | src/commands/reset.ts:57-67 | a `gh` call happens iff the record's issue is truthy |
| Reset.ArchiveNameIsJson | src/commands/reset.ts:43 | the archive name ends in ".json" |
| Reset.IssueTextCases | src/commands/reset.ts:43 | a missing issue gives "no-issue", issue 0 gives "0", and the text parses back to the issue |
| Reset.ReplaceFirstKeepsLaterSlashes | src/commands/reset.ts:43 | `"a/b/c".replace("/", "-")` is "a-b/c": only the first '/' becomes '-' |
| Js.ReplaceFirstChangesOnlyFirst | src/commands/reset.ts:43 | `replace` of a one-character string changes only the first occurrence; every other character, later occurrences included, is kept |
| Reset.ReplaceFirstSlashIff | src/commands/reset.ts:43 | the repository part of the name keeps a '/' iff the repository has a second '/' |
| Reset.ArchiveNamePlainIff | src/commands/reset.ts:43-47 | with a stamp free of '/', the archive name is a plain file name iff the repository has at most one '/' |
| Reset.HostRepoIsNotArchived | src/commands/reset.ts:43-53 | a repository given with its host, "github.com/o/r", has two slashes, so its record is deleted rather than archived |
| Reset.TimestampHasNoSeparators | src/commands/reset.ts:42 | the stamp keeps its length and contains no ':' and no '.' |
| Assign.KeepUnassigned | src/commands/assign.ts:31-37 | exactly the issues without a worker, pull-request or blocked label, no more than given |
| Assign.UnassignedIssuesFilter | src/commands/assign.ts:13-42 | none after a failed search; exactly the unassigned hits otherwise; the first kept is the first unassigned hit |
| Assign.FirstKept | src/commands/assign.ts:31-37 | the first kept issue is preceded only by assigned ones |
| Assign.Assign | src/commands/assign.ts:60-87 | outcome and new state are those of `AssignSpec` |
| Assign.AssignNothingToDo | src/commands/assign.ts:62-77 | without an unassigned issue, without an idle worker, or with an empty idle id, only the search happens |
| Assign.AssignDispatchesFirstIssue | src/commands/assign.ts:79-86 | the first unassigned issue goes to the first idle non-reserved worker, whose record is then that issue's when the spawn gives a pid; a failed spawn aborts with the records unchanged |
| Poll.Poll | src/commands/poll.ts:34-67 | outcome and new state are those of `PollSpec` |
| Poll.PollWaitsForReviewer | src/commands/poll.ts:36-46 | while vilicus is busy or crashed nothing happens, not even the search |
| Poll.PollWithoutPRs | src/commands/poll.ts:49-54 | a failed or empty search leaves only the search call |
| Poll.PollDispatchesFirstPR | src/commands/poll.ts:57-66 | the first PR is dispatched to vilicus with its number and the review prompt; stdin is never read; true iff the home exists and the spawn gives a pid, and the record is then written; a failed spawn leaves the records as they were |
| Poll.ReviewKeyIdentifies | src/commands/poll.ts:59 | for repositories without '#', equal keys mean the same repository and number |
| Watch.FirstSettledFrom | src/commands/watch.ts:8-34 | the index found is in range and not busy |
| Watch.Watch | src/commands/watch.ts:5-35 | the loop's exit status, read count and output are those of `WatchSpec` |
| Watch.FirstSettledFromIsFirst | src/commands/watch.ts:8-34 | none iff every observation is busy; otherwise all earlier ones are busy |
| Watch.WatchStopsAtFirstSettled | src/commands/watch.ts:8-34 | polling stops at the first non-busy read: exit 0 iff idle, 1 iff crashed; no exit while all reads are busy |
| Watch.WatchLines | src/commands/watch.ts:6-30 | the header first; idle adds only "Worker <id> finished (idle)"; crashed adds "Worker <id> crashed", the repo, the issue (`#undefined` without one), and the error iff the record's error is set |
| Status.GetWorkerInfo | src/commands/status.ts:55-65 | the worker's status with the record's repo, issue, pid and start time, all absent when idle |
| Status.QueryLabeledIssues | src/commands/status.ts:23-53 | one labelled issue per search hit, in order, tagged with the worker; none after a failed search |
| Status.OrphanedIssues | src/commands/status.ts:126-128 | exactly the labelled issues that are orphaned |
| Status.OrphanedIff | src/commands/status.ts:126-128 | a labelled issue is not orphaned iff the worker has a record with that repository and issue number |
| Status.ElapsedMinutes | src/commands/status.ts:97-100 | the elapsed whole minutes, rounded down: `m*60000 <= now - start < (m+1)*60000` |
| Status.FormatStatusSplits | src/commands/status.ts:80-104 | the line is the coloured status, then the repo, pid and elapsed parts in that order |
| Status.FormatStatusShape | src/commands/status.ts:80-104 | starts with id and coloured status; an idle line has nothing more; a repo adds `repo#`; a pid without start time ends the line |
| Status.SingleOrphanLines | src/commands/status.ts:132-134 | one line per orphan, in order |
| Status.AllOrphanLines | src/commands/status.ts:165-167 | one line per orphan, in order, naming its worker's label |
| Status.WorkerLines | src/commands/status.ts:151-154 | one indented status line per worker, in order |
| Status.SearchCalls | src/commands/status.ts:156 | one label search per worker, in order |
| Status.PrintSingleOrphans | src/commands/status.ts:130-135 | the single-worker orphan block: header then one line each, or nothing |
| Status.PrintAllOrphans | src/commands/status.ts:163-168 | the all-workers orphan block: header then one line each, or nothing |
| Status.SingleStatus | src/commands/status.ts:107-136 | report and new state are those of the one-worker specification |
| Status.VisitWorkers | src/commands/status.ts:151-161 | the loop's status lines, searches and collected orphans are those of the specification |
| Status.AllStatus | src/commands/status.ts:137-169 | report and new state are those of the all-workers specification |
| Status.Status | src/commands/status.ts:106-170 | report and new state are those of `StatusSpec` |
| Status.SingleOnlySearches | src/commands/status.ts:107-136 | one worker's status changes nothing but adding its label search when the home exists |
| Status.AllOnlySearches | src/commands/status.ts:137-169 | listing all workers only adds one label search per worker, in listing order |
| Status.SingleMissingHome | src/commands/status.ts:109-115 | a missing home gives exit 1, one error line and no output or search |
| Status.SingleReportHint | src/commands/status.ts:117-122 | the status line first; the hint follows iff the worker crashed on a record with a repository |
| Status.SingleReportOrphans | src/commands/status.ts:124-135 | the orphans end the output under their header; without them at most two lines |
| Status.OrphansOfMembers | src/commands/status.ts:149-161 | the collected orphans are exactly the labelled issues of listed workers that the filter keeps |
| Status.NoWorkersReport | src/commands/status.ts:141-145 | without workers: where it looked and how to create one, and no search |
| Status.AllReportLines | src/commands/status.ts:147-154 | the header, then one status line per worker in listing order |
| Status.AllReportOrphans | src/commands/status.ts:163-168 | the orphan header and lines follow the status lines, or nothing without orphans |
| History.GetCompletedTasks | src/commands/history.ts:12-41 | the loop collects the worker's finished tasks in directory order |
| History.EntriesTasksMembers | src/commands/history.ts:18-35 | a finished task is listed iff some ".json" entry holds it, dated by that file's mtime |
| History.CompletedTasksMembers | src/commands/history.ts:12-41 | as above over the worker's `completed/`, none without it |
| History.AllCompletedMembers | src/commands/history.ts:53-56 | the covered tasks are exactly those of the covered workers |
| History.NewerFirstIsTotalPreorder | src/commands/history.ts:64 | the newest-first comparison is a total preorder |
| History.FormatTasks | src/commands/history.ts:66-69 | one formatted line per task, in order |
| History.CollectCompleted | src/commands/history.ts:53-56 | the loop collects the tasks of every covered worker, worker after worker |
| History.PrintTasks | src/commands/history.ts:66-69 | the loop prints one line per sorted task |
| History.History | src/commands/history.ts:49-70 | the output is that of `HistorySpec` |
| History.HistoryNewestFirst | src/commands/history.ts:50-64 | the listed tasks are a permutation of all covered finished tasks, newest first; tasks of the same time keep their collected order |
| History.HistoryLines | src/commands/history.ts:58-69 | "No completed tasks" iff none; otherwise a header and one line per task |
| History.FormatTaskEndsWithWorker | src/commands/history.ts:43-47 | a task line ends with the worker in parentheses |
| Cli.HelpExitsZero | src/cli.ts:42-47 | usage is shown iff the command is missing, empty, "-h" or "--help"; then exit 0 |
| Cli.UnknownExitsOne | src/cli.ts:157-160 | any other name outside the command table is unknown, exit 1 |
| Cli.StopResetAssignAreUnknown | src/cli.ts:49-161 | "stop", "reset" and "assign" are unknown commands |
| Cli.DispatchNeedsIdAndRepo | src/cli.ts:61-67 | missing arguments iff the id or repo is absent or empty; exit 1 then; otherwise dispatch with exactly those |
| Cli.DispatchSplit | src/cli.ts:68-78 | the third argument is the issue iff truthy with a number prefix; the prompt parts then are the rest, and otherwise include a truthy third argument |
| Cli.PromptJoin | src/cli.ts:79 | no prompt iff no parts; a single part is the prompt; more are joined by single spaces |
| Cli.ParseDispatch | src/cli.ts:61-62 | dispatch gets every argument after its name |
| Cli.DispatchNumberPrefix | src/cli.ts:71-72 | "12abc" as the third argument is issue 12 with no prompt |
| Cli.DispatchWordPrompt | src/cli.ts:75-79 | a word third is no issue and starts the prompt "Fix it" |
| Cli.DispatchEmptyThird | src/cli.ts:77 | an empty third argument is neither issue nor prompt |
| Cli.ParseInspect | src/cli.ts:101-109 | inspect takes the id and an optional line count |
| Cli.InspectLineCount | src/cli.ts:108 | no or an empty count gives 30; otherwise `parseInt` of it, NaN included |
| Inspect.Truncate | src/commands/inspect.ts:20-23 | short text unchanged; for lengths of at least 3 the result is at most that long, and a cut text is its first `len-3` characters plus "..." |
| Inspect.TruncateIdempotent | src/commands/inspect.ts:20-23 | truncating twice equals truncating once |
| Inspect.TruncateKeepsCharacters | src/commands/inspect.ts:20-23 | every character of the result other than '.' comes from the text |
| Inspect.ProcessLine | src/commands/inspect.ts:63-101 | the loop's events are those of `LineEvents` |
| Inspect.LineEventsOnlyFromAssistantBlocks | src/commands/inspect.ts:63-101 | unparseable lines, non-assistant messages and string content give no events; assistant block arrays give their blocks' events |
| Inspect.BlockEventsAppend | src/commands/inspect.ts:71-94 | the events of blocks one after another are the concatenation of their events |
| Inspect.OneEventPerBlock | src/commands/inspect.ts:72-93 | a block makes one event iff it is a named tool call or a non-empty text, else none |
| Inspect.BlockEventsFromBlocks | src/commands/inspect.ts:71-94 | no more events than blocks, each made by some block |
| Inspect.ToolCallEvent | src/commands/inspect.ts:72-89 | a tool call shows its name and detail; Bash shows at most 60 characters of its command; TodoWrite shows its note |
| Inspect.TextEvent | src/commands/inspect.ts:90-92 | a text shows on one line, at most 80 characters |
| Inspect.EventsOfAppend | src/commands/inspect.ts:158-161 | the events of lines one after another are the concatenation of their events |
| Inspect.CollectEvents | src/commands/inspect.ts:158-161 | the loop gathers the events of every line, in order |
| Inspect.Inspect | src/commands/inspect.ts:103-173 | the normal-mode output is that of `InspectSpec` |
| Inspect.RecentLinesAreLast | src/commands/inspect.ts:155-156 | a positive count `n` takes the last `2n` lines, or all when fewer |
| Inspect.RecentEventsAreLast | src/commands/inspect.ts:156-161 | the events of the recent lines are the last events of the whole log |
| Inspect.ShownAreLast | src/commands/inspect.ts:164 | at most the last `n` events are shown, exactly `n` when there are that many |
| Inspect.CountNaNOrZeroShowsAll | src/commands/inspect.ts:156-164 | a count of NaN or 0 shows every event of the log |
| Inspect.InspectOutput | src/commands/inspect.ts:104-173 | no log gives one line; no events gives "No recent activity"; otherwise a header naming the worker and the shown events |
| Lifecycle.DispatchThenExit | src/commands/dispatch.ts:146-152 | after dispatch the worker is busy on the new record; when its agent exits it is crashed on that same record |
| Lifecycle.CrashThenRestart | src/commands/restart.ts:11-58 | restarting a crashed worker returns normally and makes it busy on its task with the new pid |
| Lifecycle.CrashThenReset | src/commands/reset.ts:18-54 | resetting a crashed worker needs no force, makes it idle, and, when the archive name holds no '/', its history then lists the task |
| Lifecycle.DispatchedTaskReachesHistory | src/commands/reset.ts:40-54 | for a repository with at most one '/', dispatch, exit and reset put the dispatched task, dated at dispatch, in the worker's history |
| Lifecycle.DispatchedIssueNotOrphaned | src/commands/status.ts:126-128 | the dispatched issue is not orphaned while busy or crashed, and is orphaned once reset |

## Left out

- Console output of the mutating commands (dispatch, restart, stop, reset, assign, poll). Their messages carry no state; the commands that report (watch, status, history, inspect) have their output modelled.
- The sleeps (1 s in stop, 5 s in watch). Time passing is the `termHonoured` flag and the sequence of observations.
- Log files, the `detached` option, the `cwd`/`HOME` of the child and `child.unref()`: these are process plumbing. A spawn is an effect in the trace with the worker's home and the agent's arguments.
- JSON parsing and serialisation. A record is `Json(task)` or `Garbled`; a file holding JSON `null` counts as `Garbled`. Extra fields of a record, and non-string values in a tool's input, are not modelled.
- Dates. `new Date().toISOString()` is the `Instant` given to dispatch and reset. The date parsing of `formatStatus` is the `parseDate` parameter. The date and time text of `formatTask` is the `stamp` parameter.
- String length in UTF-16 code units. The model counts Unicode scalar values, so `truncate` and the prompt preview differ for characters outside the Basic Multilingual Plane. The default `sort()` compares code points rather than UTF-16 units for the same reason.
- Js.IntToString: numbers are exact integers. JavaScript prints numbers of 21 digits or more in exponent form, and that form is not modelled.
- Js.ParseInt: numbers are exact integers. JavaScript numbers are doubles, so `parseInt` rounds a digit run beyond 2^53: `dispatch w o/r 9007199254740993` gets issue 9007199254740992, where the model keeps the exact number.
- Js.ParseIntOfIntToString: stated for every integer. In JavaScript the round trip holds only for integers of magnitude at most 2^53.
- Dispatch.DispatchSpec: a worker id is taken to be a single path segment, and a home that is a symbolic link is not modelled. `path.join` normalises ids such as "./b" or "b/../b" to another worker's home, and `readdir` follows a symbolic link that the listing does not show as a directory; in both cases dispatch.ts:44-52 goes ahead where the model reports a missing worker.
- Status.SingleSpec: the same restriction on worker ids and symbolic links applies to the home check of status.ts:108-115.
- A spawn that fails is recognised by `child.pid` being undefined. The `'error'` event then ends the process with exit status 1, which the model shows as `Dispatch.Aborted` and as exit status 1 of restart; the stack trace Node prints is not modelled.
- Concurrency between separate invocations. The model orders the effects of one invocation, with spawn before write; `watch` sees other processes' changes as its observations.
- Reset.Clear: an archive name holding '/' is taken to fail the rename, so the record is deleted. The rename would succeed only if `completed/` had a subdirectory of that name, which no command creates.
- The catch around SIGKILL in reset and the catch in stop: a process that disappears between the check and the kill. The model takes the liveness check as up to date.
- `inspect`'s follow mode: an endless tailing loop.
- `findLatestConversation`: the choice of log file by modification time. `Inspect.Inspect` takes the latest log, if any, as a parameter already split into parsed lines; `trim().split("\n")` is not modelled.
- init, refresh, update, logs and todos: template copying, credential copying, git and build steps, log dumping and todo rendering, all file I/O without state the rest depends on. They appear only as entries of the command table in `Cli.Parse`.
- The wording of error messages sent to stderr by the command line and by status. The model keeps their count and the exit status.
- `listWorkers` in status.ts is the same code as `getWorkerIds`, and the model uses `Paths.GetWorkerIds` for both.
- History.History: the in-place `sort` of `allTasks` is modelled as the function `Sorting.SortBy` on a sequence. It is stable (`Sorting.SortStable`), as the JavaScript sort is, but it does not work in place.
- The idle branch of watch.ts prints the task's repository and issue "if (task)". An idle status never comes with a task, so that code cannot run, and the model prints the idle line alone.
- Assign.AssignDispatchesFirstIssue: stated for a worker id that is not the empty string, which a directory name never is.
