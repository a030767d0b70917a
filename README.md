# vscode-autoGit, modelled in Dafny

The VS Code extension *autoGit* commits the files of a workspace on its own:
- Every edit or save of a file on disk arms a debounce timer for that path. When the timer fires, `autoCommit` stages everything, asks for a commit message and commits. With `syncAfterCommit` set, it then runs `autoSync`.
- A periodic timer runs `autoSync`. It stages, commits what is staged, then pulls and pushes when a remote exists.
- The `commitAndSync` command (`manualCommitAndSync`) stages and commits on demand, whatever `enabled` says, then pulls and pushes when a remote exists. With nothing staged after `add -A` it stops at `No changes to commit` and does not sync.
- Commit messages come from `generateCommitMessage`. It parses `git status --porcelain`, asks the editor's language model, and otherwise falls back to `Auto-commit: <paths> at <time>`.
- `ExtensionTestHelper` carries stand-alone variants of the sync, of commit-and-sync and of the message. They return outcome records instead of showing notifications.

The model, module by module:

- `JsString` holds the JavaScript string operations the source relies on: `trim()` over the ECMAScript white-space set, `split`, `join` and `substring` with its clamping.
- `Synthesizer` holds the status labels (`getFileStatusFromCode`), the porcelain parser including its global `trim()`, the fallback message and `generateCommitMessage`. The language model's answer and the timestamp are inputs.
- `Porcelain` holds the short format of git-status(1). It formats entries, parses them back, and shows where the parser loses a character of a path (see Findings).
- `Git` models the `simple-git` handle:
  - a `World` value holds the work tree, the index, the remote count, the porcelain text and the log of issued operations;
  - a `Repository` class has one method per git call.
  
  Any call may fail. Which calls fail is a map from log positions to error texts, so a property proved for every map holds whichever calls fail.
- `Orchestrator` covers `autoSync`, `autoCommit` and `manualCommitAndSync`.
  - Each is a function from a world to a report and the world after the run. A method runs the same steps against a `Repository` and is proved equal to that function.
  - Lemmas relate every run to the script of operations it issues when nothing fails. Whatever fails, a run issues a prefix of that script. `autoSync` and `manualCommitAndSync` stop at the first failure. `autoCommit` stops when `add -A` or the commit fails, but a failing porcelain query only switches it to the fallback message.
  - Safety lemmas cover:
    - the `enabled` gate;
    - no pull or push without a remote;
    - every push right after a pull;
    - at most one commit;
    - no commit when nothing is staged.
- `Scheduler` is a `Timers` class. It holds `commitTimers`, `syncInterval` and the host's table of armed timers.
  - A timer firing is an explicit event.
  - The class invariant says the variables and the table agree. From it follows that at most one debounced commit is pending per path and at most one periodic sync is armed.
- `TestHelper` covers `testAutoSync`, `testCommitAndSync` and `testGenerateCommitMessage`, and the `ExtensionTestHelper` class whose methods run the first two against a `Repository`.

Behaviour of the code that is easy to misread:
- **Reason strings.** The helper's reasons are `extension disabled`, `uncommitted changes` and `no remote`, as written in the code.
- **`testAutoSync` gate.** It checks `status.files`, which counts staged changes as well as unstaged ones.
- **`autoSync` gate.** There is no dirty-tree check. It stages and commits first.
- **Failing porcelain query in `autoSync`.** The run ends there with `Auto-sync failed`. Only `autoCommit` catches that failure and goes on with the fallback message.
- **Reports.** `autoSync` and `autoCommit` return nothing in the source. The `Report` datatype records which notification or status message the run ends with.

`generateCommitMessage` never returns a blank string. So the `if (!commitMessage || !commitMessage.trim())` fallback that `autoSync` and `manualCommitAndSync` apply to its answer is never taken (`Orchestrator.GeneratedMessageNeedsNoFallback`). In `autoCommit` the fallback matters only when the porcelain query fails.

## Model

| member | source | states |
|---|---|---|
| JsString.TrimStart | src/extension.ts:359 | the result is a suffix of the text, what it drops is all white space, and it is empty or starts with a character other than white space |
| JsString.TrimEnd | src/extension.ts:359 | the result is a prefix of the text, what it drops is all white space, and it is empty or ends with a character other than white space |
| JsString.BlankIffTrimsToEmpty | src/extension.ts:361 | `line.trim()` is empty exactly when the line is white space only, so the filter drops exactly the blank lines |
| JsString.SplitJoin | src/extension.ts:360 | splitting at a separator the parts do not contain gives back the parts that were joined |
| JsString.JoinSplit | src/extension.ts:360 | joining the pieces of `split("\n")` with a line feed restores the text |
| JsString.Substring | src/extension.ts:363-364 | `substring` takes the slice between its bounds, swapping them when reversed; a bound past the end counts as the end, so `substring(0, 2)` of a one-character line is that line, and two bounds past the end give the empty string |
| JsString.JoinPlacesPart | src/extension.ts:479 | each part of `join(", ")` sits at its offset, followed by the separator unless it is the last |
| JsString.JoinFrom | src/extension.ts:479 | from the offset where the `i`-th part starts, the joined text is the join of that part and the ones after it |
| Synthesizer.FileStatusFromCode | src/extension.ts:493-502 | the label's letter occurs in the code and no letter of higher precedence does; `Changed` only when none of A, M, D, R, C, ? occurs |
| Synthesizer.PrecedenceDeterminesStatus | src/extension.ts:493-502 | those two facts determine the label uniquely |
| Synthesizer.ParseLine | src/extension.ts:362-369 | the status is the label of the first two characters and the path is everything from index 3, empty for short lines |
| Synthesizer.NonBlank | src/extension.ts:361 | the kept lines are no more than the input and none of them is blank |
| Synthesizer.NonBlankEmptyIff | src/extension.ts:361 | nothing is kept exactly when every line is blank |
| Synthesizer.NonBlankKeepsLine | src/extension.ts:361 | a non-blank line is kept, after what is kept of the lines before it and before what is kept of the lines after it |
| Synthesizer.NonBlankDropsLine | src/extension.ts:361 | a blank line is dropped and the lines around it keep their order |
| Synthesizer.ParseStatus | src/extension.ts:358-369 | one record per line of the trimmed output, in order, each parsed by `ParseLine` |
| Synthesizer.TrimTouchesOnlyOuterLines | src/extension.ts:358-361 | the global `trim()` keeps the number and order of the non-blank lines and changes only the first (leading space) and the last (trailing space) |
| Synthesizer.ParseStatusEmptyIff | src/extension.ts:358-369 | no records exactly when the output is white space only |
| Synthesizer.FallbackMessage | src/extension.ts:476-485 | the fallback starts with `Auto-commit: ` and ends with ` at ` and the timestamp |
| Synthesizer.FallbackListsEveryPath | src/extension.ts:477-485 | from where each path starts, the fallback reads that path and the later ones joined by `, `, then ` at ` and the timestamp; so every path appears in order, each followed by `, ` except the last |
| Synthesizer.AiAnswer | src/extension.ts:434-445 | the model's answer is used trimmed, and only when it is not blank |
| Synthesizer.GenerateCommitMessage | src/extension.ts:353-486 | no records gives `Auto-commit: Update files`; otherwise the model's trimmed answer if it gave one, else the fallback over the parsed paths; never blank |
| Porcelain.LinesOfFormat | src/extension.ts:358-361 | the non-blank lines of a formatted status are exactly the formatted entries |
| Porcelain.ParseStatusRoundTrip | src/extension.ts:358-369 | the parser recovers every entry's path and label when the first entry's index column is not blank |
| Porcelain.TrimQuirkLosesFirstPathCharacter | src/extension.ts:358-364 | a lone entry with a blank index column (` M a.txt`) is parsed with its first path character missing |
| Porcelain.ParseStatusExact | src/extension.ts:358-369 | the parser without the global trim: one record per non-blank line, in order |
| Porcelain.ParseStatusExactRoundTrip | src/extension.ts:358-369 | without the global trim every valid entry is recovered, whatever its columns |
| Porcelain.ParsersAgreeOnTrimmedOutput | src/extension.ts:358-361 | both parsers agree when the first line starts and the last ends with a character other than white space |
| Git.Exec | src/extension.ts:111-131 | a call is logged whether or not it fails; it fails exactly when a fault waits at its position; a failing call and every query leave work tree and index alone; `add -A` empties the work tree into the index; `commit` empties the index |
| Git.Repository.constructor | src/extension.ts:61 | the handle starts on the given repository state |
| Git.Repository.Add | src/extension.ts:63 | `git.add("-A")` changes the repository as `Exec` says |
| Git.Repository.StatusPorcelain | src/extension.ts:112 | `git.raw(["status","--porcelain"])` answers the porcelain text and changes only the log |
| Git.Repository.Status | src/extension.ts:118-119 | `git.status()` answers the number of changed and of staged files |
| Git.Repository.Commit | src/extension.ts:120 | `git.commit` empties the index unless it fails |
| Git.Repository.GetRemotes | src/extension.ts:122-123 | `git.getRemotes` answers the number of remotes |
| Git.Repository.Pull | src/extension.ts:130 | `git.pull` is logged and may fail |
| Git.Repository.Push | src/extension.ts:131 | `git.push` is logged and may fail |
| Orchestrator.MessageOrFallback | src/extension.ts:80-82 | a present, non-blank message is kept; otherwise the fallback is used |
| Orchestrator.GeneratedMessageNeedsNoFallback | src/extension.ts:113-116 | the fallback applied to `generateCommitMessage`'s answer never changes it |
| Orchestrator.RemoteSync | src/extension.ts:122-131 | the remote phase ends in `NoRemote`, `Synced` or a failure, and changes only the log |
| Orchestrator.RemoteSyncRan | src/extension.ts:122-131 | it issues `getRemotes`, then `pull` and `push` only with a remote, stopping at the first failure |
| Orchestrator.AutoSyncRun | src/extension.ts:98-138 | disabled or without a workspace it does nothing; otherwise it ends in `NoRemote`, `Synced` or a failure |
| Orchestrator.AutoSyncWith | src/extension.ts:99-107 | the `enabled` gate comes before the workspace gate, and neither issues a git call |
| Orchestrator.StageThenCommitAndSync | src/extension.ts:111-112 | stage, then query the porcelain status, stopping on a failure |
| Orchestrator.CommitStagedThenSync | src/extension.ts:118-121 | a commit is issued only when the staged count is positive |
| Orchestrator.CommitStagedThenSyncRan | src/extension.ts:118-131 | it runs status, commit if something is staged, and the remote phase; a clean run leaves nothing to commit |
| Orchestrator.StageThenCommitAndSyncRan | src/extension.ts:111-131 | the run issues a prefix of the `autoSync` script, stopping at the first failure, and leaves nothing to commit when nothing fails |
| Orchestrator.AutoSyncRan | src/extension.ts:98-138 | enabled with a workspace, `autoSync` runs its script up to the first failure with the generated message |
| Orchestrator.AutoSyncSafety | src/extension.ts:99-131 | whichever calls fail: no call when disabled or without a workspace; every push right after a pull; no pull or push without a remote; a commit only when there were changes; the whole script when nothing fails |
| Orchestrator.AutoCommitRun | src/extension.ts:50-93 | gated like `autoSync`; ends in a failure or a commit, which carries the sync's report exactly when `syncAfterCommit` is set |
| Orchestrator.StageThenCommit | src/extension.ts:63-87 | the run ends in a failure or a commit, which carries a sync report exactly when `syncAfterCommit` is set |
| Orchestrator.StageThenCommitAfterFailedQuery | src/extension.ts:63-82 | a failing porcelain query does not end the run: it goes on from the staged tree, with add and query logged, and commits the message kept for an unanswered query |
| Orchestrator.StageThenCommitFails | src/extension.ts:61-91 | the run fails exactly when `add -A` fails, ending after that call, or when the commit fails, ending after add, query and commit |
| Orchestrator.CommitThenMaybeSync | src/extension.ts:83-87 | the committed report carries the message committed, and a sync report exactly when `syncAfterCommit` is set |
| Orchestrator.CommitThenMaybeSyncRan | src/extension.ts:83-87 | it issues the commit and then, with `syncAfterCommit`, a full `autoSync` |
| Orchestrator.StageThenCommitRan | src/extension.ts:61-91 | the staging part issues a prefix of its script and commits the message chosen by whether the query failed; it fails exactly when add or commit fails, with that call's error, never because of the query |
| Orchestrator.AutoCommitRan | src/extension.ts:50-93 | the run issues a prefix of the `autoCommit` script; it fails exactly when `add -A` fails (after one call) or the commit fails (after three), with that call's error, and a failing query does not end it; the committed message is the generated one unless the query failed, and never blank; with no failure pending, the whole script runs and leaves nothing to commit |
| Orchestrator.AutoCommitMessageCases | src/extension.ts:64-82 | the message is the fallback exactly when the porcelain query fails |
| Orchestrator.AutoCommitMessageNotBlank | src/extension.ts:80-83 | `autoCommit` never commits a blank message |
| Orchestrator.AutoCommitSafety | src/extension.ts:51-87 | whichever calls fail: no call when disabled; every push right after a pull; at most one commit; no pull or push without a remote or without `syncAfterCommit` |
| Orchestrator.ManualCommitAndSyncRun | src/extension.ts:170-221 | without a workspace nothing happens; `enabled` is not consulted; the run ends in `No changes to commit`, a failure or a commit |
| Orchestrator.ManualSteps | src/extension.ts:183-190 | the run stops with `No changes to commit` when nothing is staged after `add -A` |
| Orchestrator.CommitStaged | src/extension.ts:193-213 | after the commit, the remote phase; its failure is the run's failure |
| Orchestrator.CommitStagedRan | src/extension.ts:193-213 | it issues query, commit and the remote phase, stopping at the first failure |
| Orchestrator.ManualStepsRan | src/extension.ts:183-213 | the run issues a prefix of the manual script; nothing staged means only add and status |
| Orchestrator.ManualStepsSafety | src/extension.ts:183-213 | nothing to commit means no commit, pull or push; every push right after a pull; no pull or push without a remote |
| Orchestrator.ManualCommitAndSyncSafety | src/extension.ts:170-213 | those facts hold for the command whatever `enabled` says, and with no failure pending it commits the generated message |
| Orchestrator.SyncWithRemote | src/extension.ts:122-131 | the remote calls against the repository do what `RemoteSync` says |
| Orchestrator.AutoSync | src/extension.ts:98-138 | running `autoSync` against the repository yields the report and state `AutoSyncRun` says |
| Orchestrator.AutoCommit | src/extension.ts:50-93 | running `autoCommit`, including its nested `autoSync`, yields the report and state `AutoCommitRun` says |
| Orchestrator.ManualCommitAndSync | src/extension.ts:170-221 | running the command yields the report and state `ManualCommitAndSyncRun` says |
| Scheduler.DebounceDelayMs | src/extension.ts:259 | the delay is at least 5000 ms and at least the configured seconds, and is one of the two |
| Scheduler.DebounceDelayFloor | src/extension.ts:259 | from five seconds on the configured delay is used; below that, 5000 ms |
| Scheduler.OneCommitTimerPerPath | src/extension.ts:255-270 | while the variables agree with the timer table, the only pending commit of a path is the one `commitTimers` names |
| Scheduler.ReplaceCommitTimer | src/extension.ts:261-270 | cancelling a path's timer and arming a new one keeps the agreement |
| Scheduler.OneSyncTimer | src/extension.ts:144-146 | at most one periodic sync is armed, the one `syncInterval` names |
| Scheduler.Timers.constructor | src/extension.ts:5-8 | the extension starts with no timers |
| Scheduler.Timers.Arm | src/extension.ts:264-267 | `setTimeout` and `setInterval` arm a timer under a fresh handle |
| Scheduler.Timers.ScheduleAutoCommitOnEdit | src/extension.ts:255-270 | a document not on disk changes nothing; otherwise the path's old timer is cancelled, exactly one new one is pending with the floored delay, and every other path's pending commits are unchanged |
| Scheduler.Timers.ScheduleAutoCommit | src/extension.ts:277-280 | saving debounces exactly as editing does: a document not on disk changes nothing; otherwise the path's old timer is cancelled, one new commit timer with the floored delay is armed, the periodic sync is kept, and other paths are unchanged |
| Scheduler.Timers.Fire | src/extension.ts:265-269 | a debounced commit firing runs `autoCommit` for its document and removes only that path's entry; the periodic sync stays armed |
| Scheduler.Timers.StartSyncTimer | src/extension.ts:144-147 | the old periodic sync is cancelled and exactly one new one is armed with period minutes × 60000 |
| Scheduler.Timers.Deactivate | src/extension.ts:344-346 | only the periodic sync is cancelled; the variable keeps its handle and pending debounced commits stay armed |
| TestHelper.TestAutoSyncRun | src/extension-testable.ts:23-49 | disabled gives `extension disabled` and no call; the run never stages or commits; `skipped` only with `uncommitted changes` |
| TestHelper.TestAutoSyncRan | src/extension-testable.ts:31-48 | it issues status, then the remote phase only on a clean tree; a failing step's error text is the reason; otherwise `uncommitted changes`, `no remote` or success |
| TestHelper.TestAutoSyncSafety | src/extension-testable.ts:23-48 | whichever calls fail: a dirty tree means no remote lookup, pull or push; no pull or push without a remote; every push right after a pull; success only after status, remote lookup, pull and push |
| TestHelper.TestAutoSyncRepeats | src/extension-testable.ts:38-41 | on a clean tree without a remote it answers `no remote`, changes only the log, and answers the same again |
| TestHelper.TestCommitAndSyncRun | src/extension-testable.ts:54-94 | disabled gives `extension disabled` and no call; `synced` implies success |
| TestHelper.StageCommitSync | src/extension-testable.ts:65-74 | staging and the status query stop the run on failure with nothing committed |
| TestHelper.CommitIfStagedThenSync | src/extension-testable.ts:70-85 | a commit only when something is staged; `synced` implies success |
| TestHelper.CommitIfStagedThenSyncRan | src/extension-testable.ts:70-92 | commit then the remote phase up to the first failure, with `committed` telling whether the commit went through |
| TestHelper.StageCommitSyncRan | src/extension-testable.ts:62-92 | the run issues a prefix of its script; a failure gives its error text and `synced` false; otherwise `committed` is "something was staged" and `synced` is "a remote exists" |
| TestHelper.StageCommitSyncScriptCommits | src/extension-testable.ts:67-73 | a prefix of the script commits exactly when there were changes and the prefix reaches past `add -A` and `status` |
| TestHelper.StageCommitSyncScriptPushes | src/extension-testable.ts:76-82 | the script pushes exactly when a remote exists |
| TestHelper.StageCommitSyncScriptShape | src/extension-testable.ts:67-82 | the script has every push right after a pull, at most one commit, and no pull or push without a remote |
| TestHelper.StageCommitSyncProgress | src/extension-testable.ts:62-92 | `committed` holds exactly when a commit was issued and went through; a commit is issued only when something was staged; `synced` holds exactly when the push went through |
| TestHelper.TestCommitAndSyncRan | src/extension-testable.ts:54-94 | the two lemmas above for the helper's own message |
| TestHelper.TestCommitAndSyncSafety | src/extension-testable.ts:54-94 | whichever calls fail: no call when disabled; at most one commit; every push right after a pull; with zero remotes no pull or push, and success reports `no remote` and not synced |
| TestHelper.TestGenerateCommitMessage | src/extension-testable.ts:99-114 | `isAI` is always false; no lines give `Auto-commit: Update files` |
| TestHelper.TestGenerateMatchesFallback | src/extension-testable.ts:99-114 | the helper's message is `generateCommitMessage`'s when the model gives no answer |
| TestHelper.TestGenerateIsFallback | src/extension-testable.ts:107-113 | with some change the message is the fallback listing every filename, joined by `, ` |
| TestHelper.ExtensionTestHelper.constructor | src/extension-testable.ts:16-18 | the helper drives the given repository |
| TestHelper.ExtensionTestHelper.TestAutoSync | src/extension-testable.ts:23-49 | running it against the repository yields the outcome and state `TestAutoSyncRun` says |
| TestHelper.ExtensionTestHelper.TestCommitAndSync | src/extension-testable.ts:54-94 | running it, with its `committed` and `synced` flags, yields the outcome and state `TestCommitAndSyncRun` says |

## Left out

- The status bar, notifications, command registration, `activate`, `toggleautoGitEnabled` and reading the configuration are host glue. Configuration values are parameters, and the reports stand for the messages shown.
- The language-model request, its prompt and the per-file diffs fetched for it are external I/O. The model's answer is an optional string.
- `Date().toLocaleString()` is an input string.
- The wall-clock behaviour of `setTimeout` and `setInterval` is not modelled. Neither is Node's replacement of a delay below 1 ms or above 2^31−1 ms by 1 ms. A timer firing is an explicit `Fire` event.
- Scheduler.Timers.Fire: the `autoCommit` or `autoSync` that a fired timer starts is returned as a callback and run separately. The source does not await that run, so runs can overlap, and overlapping runs are not modelled.
- Git.Exec: git's own semantics are not modelled. The porcelain text is an answer of the environment and is not derived from the index and work tree. Pull and push change nothing but the log. Git refusing an empty commit is a fault like any other.
- Orchestrator.AutoCommitRun: the `autoSync` that follows a commit gets the same model answer and timestamp as the commit. In the source it asks the model again, at a later time.
- TestHelper.TestAutoSyncRun: an absent `skipped` is modelled as false. An error text is a string, so the difference between `err.message` and `String(err)` is not modelled.
- Strings are sequences of Unicode code points, while JavaScript strings are sequences of UTF-16 code units. Where `substring(3)` would split a surrogate pair, the model drops a whole character instead.
- Numbers are modelled as unbounded integers. JavaScript's are IEEE-754 doubles, so fractional `debounceIntervalSeconds` and `syncInterval` values, and precision loss on very large ones, are not modelled.
- `getGitStatus` and `isGitRepository` of the test helper only forward to `git.status()`.

## Findings

| source | as written | input that shows it | evidently intended | confidence | as-written member | corrected member |
|---|---|---|---|---|---|---|
| src/extension.ts:358-364 | `trim()` is applied to the whole porcelain output before it is split. A first line whose index column is blank loses that column, and `substring(3)` then drops the first character of its path | `" M a.txt\n"` (a file modified only in the work tree) is parsed as path `.txt` instead of `a.txt` | split the output first and keep each line's two status columns, so every entry's path is recovered | not executed | Porcelain.TrimQuirkLosesFirstPathCharacter | Porcelain.ParseStatusExactRoundTrip |
