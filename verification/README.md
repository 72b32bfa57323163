# Perfectum, modelled in Dafny

Perfectum measures web page performance. This project models three of its packages.

- **`@perfectum/synthetic`, the audit pipeline.** It validates its configuration, optionally
  builds and starts the project under test, launches a browser, and audits every configured
  URL on a mobile and then a desktop profile. For each profile it runs the audit engine several
  times and keeps the representative (median-scored) run. It writes the report files and finally
  stops every process it started. Modelled here:
  - the budget translator;
  - the auditor's run selection and budget installation;
  - the command runner that waits for a build or start command to report readiness;
  - the builder and starter guards;
  - the configuration validator;
  - the reporter;
  - the driver `SyntheticPerformance.run`.
- **`@perfectum/cli`, the `audit` command.** It finds the configuration file (a `--config`
  path or the default file), follows its `extends` chain, and resolves the authentication-script
  and working-directory paths against the file's directory. It merges the file's `synthetic`
  section with the command-line arguments and runs the pipeline.
- **`@perfectum/client`, the in-browser library.** `PerfectumClient.init` creates a
  `Performance` store. The store's observer callbacks fill in the page's paint, input,
  layout-shift, long-task and element timings. `startMeasure`/`stopMeasure` time named spans
  with `performance.mark` and `performance.measure`.

Each core source file is one module. Pure code is modelled as functions and lemmas. Code that
updates state in place is modelled as classes whose methods are proved against specification
functions:
- the auditor's shared settings;
- the command runner's process record;
- the driver's stop-callback queue;
- the reporter's file system;
- the client's metric store and static flags.

Three support modules sit alongside:
- `JsValues` models the JavaScript values the code inspects. It covers truthiness, optional
  chaining, `Object.keys`, `delete` and property assignment.
- `FileSystems` models the synchronous `fs` calls of the reporter.
- `Paths` holds `path.dirname`, `path.join` and `path.resolve` as uninterpreted functions.

The outside world becomes inputs: the browser, the audit engine, child processes and their
output, clocks, and `deepmerge`.

## Model

| member | source | states |
|---|---|---|
| LighthouseBudgets.ValidMetricNames | packages/synthetic/src/auditor/utils/create-lighthouse-budget.ts:44-51 | a name is kept iff it is a budget key and a member of the metric enumeration; never more names than keys |
| LighthouseBudgets.TimingsMetricNames | packages/synthetic/src/auditor/utils/create-lighthouse-budget.ts:53-64 | a name is kept iff it is not `resource-sizes` or `resource-requests` |
| LighthouseBudgets.ResourceMetricNames | packages/synthetic/src/auditor/utils/create-lighthouse-budget.ts:66-77 | a name is kept iff it is one of the two resource families |
| LighthouseBudgets.MetricNamesPartition | packages/synthetic/src/auditor/utils/create-lighthouse-budget.ts:53-77 | timing names and resource names together are exactly the valid names (as multisets) |
| LighthouseBudgets.AddTimingsMetricThresholds | packages/synthetic/src/auditor/utils/create-lighthouse-budget.ts:83-102 | the forEach loop appends exactly the timing entries of the names, in name order |
| LighthouseBudgets.AddResourceTypeThresholds | packages/synthetic/src/auditor/utils/create-lighthouse-budget.ts:115-126 | the inner forEach appends exactly the resource entries of the type keys, in key order |
| LighthouseBudgets.AddResourceMetricThreshold | packages/synthetic/src/auditor/utils/create-lighthouse-budget.ts:111-149 | one name: `resource-sizes` extends only the sizes list, `resource-requests` only the counts list, after `Object.keys`, which may throw |
| LighthouseBudgets.AddResourceMetricThresholds | packages/synthetic/src/auditor/utils/create-lighthouse-budget.ts:104-150 | the outer loop appends the contributions of all resource names, or stops with the first `Object.keys` error |
| LighthouseBudgets.ResourceThresholdsFailureSticks | packages/synthetic/src/auditor/utils/create-lighthouse-budget.ts:111-149 | once a name throws, the later names change nothing |
| LighthouseBudgets.CreateLighthouseBudget | packages/synthetic/src/auditor/utils/create-lighthouse-budget.ts:10-42 | the method builds exactly the translation of the budget for the device and value kind, which defaults to `current` |
| LighthouseBudgets.TimingEntriesSound | packages/synthetic/src/auditor/utils/create-lighthouse-budget.ts:90-101 | each timing entry names a given metric and holds the non-NaN number at `budget[metric][device][kind]`; a name gives at most as many entries as it occurs among the names, so at most one per key of `Object.keys` |
| LighthouseBudgets.TimingEntriesComplete | packages/synthetic/src/auditor/utils/create-lighthouse-budget.ts:90-101 | every given metric whose value is a non-NaN number gets its entry |
| LighthouseBudgets.ResourceEntriesSound | packages/synthetic/src/auditor/utils/create-lighthouse-budget.ts:115-126 | each resource entry names a given type key and holds the non-NaN number at `budget[family][type][device][kind]` |
| LighthouseBudgets.ResourceEntriesComplete | packages/synthetic/src/auditor/utils/create-lighthouse-budget.ts:115-126 | every type key whose value is a non-NaN number gets its entry |
| LighthouseBudgets.ResourceThresholdsFailIff | packages/synthetic/src/auditor/utils/create-lighthouse-budget.ts:111-149 | the resource step throws iff some resource family present holds `null` or `undefined` |
| LighthouseBudgets.ResourceThresholdsRouting | packages/synthetic/src/auditor/utils/create-lighthouse-budget.ts:111-149 | sizes come only from `resource-sizes` and counts only from `resource-requests` |
| LighthouseBudgets.ResourceThresholdsComplete | packages/synthetic/src/auditor/utils/create-lighthouse-budget.ts:111-149 | every valid value of a present family lands in that family's list |
| LighthouseBudgets.TranslateFailsIff | packages/synthetic/src/auditor/utils/create-lighthouse-budget.ts:10-51 | translation throws iff the budget is `null`/`undefined` or a resource family in it holds `null`/`undefined` |
| LighthouseBudgets.TranslatedTimingsAre | packages/synthetic/src/auditor/utils/create-lighthouse-budget.ts:21-31 | the timings list is the entry list of the timing names, computed from the budget's own keys |
| LighthouseBudgets.TranslatedTimings | packages/synthetic/src/auditor/utils/create-lighthouse-budget.ts:83-102 | a timing for m exists iff m is a known, non-resource key with a non-NaN number value; it carries that value; no more timings than keys |
| LighthouseBudgets.TranslatedResources | packages/synthetic/src/auditor/utils/create-lighthouse-budget.ts:104-150 | each family's list holds exactly its type keys' valid values, in both directions |
| LighthouseBudgets.NoMetricKeysGiveEmptyBudget | packages/synthetic/src/auditor/utils/create-lighthouse-budget.ts:15-19 | a budget with no known metric key (only `url`, say) gives three empty lists |
| AuditSelection.ValidResults | packages/synthetic/src/auditor/index.ts:153-163 | a result is kept iff its performance score is a number other than NaN; never more results than given |
| AuditSelection.ValidScoresAreNumbers | packages/synthetic/src/auditor/index.ts:155-157 | a kept result's score is not NaN |
| AuditSelection.ScoreLeTotal | packages/synthetic/src/auditor/index.ts:166-171 | on scores other than NaN the comparator's order is total |
| AuditSelection.Insert | packages/synthetic/src/auditor/index.ts:165-172 | one stable insertion step adds exactly one element |
| AuditSelection.SortByScore | packages/synthetic/src/auditor/index.ts:165-172 | sorting keeps the length |
| AuditSelection.InsertPermutes | packages/synthetic/src/auditor/index.ts:165-172 | an insertion step adds exactly the inserted element (multiset) |
| AuditSelection.InsertSorted | packages/synthetic/src/auditor/index.ts:165-172 | inserting a valid result into a sorted valid list keeps it sorted by score |
| AuditSelection.SortPermutes | packages/synthetic/src/auditor/index.ts:165-172 | the sorted list is a permutation of its input |
| AuditSelection.SortSorted | packages/synthetic/src/auditor/index.ts:165-172 | sorting valid results orders them ascending by score |
| AuditSelection.SortCounts | packages/synthetic/src/auditor/index.ts:165-172 | sorting changes no count of scores below or above a threshold |
| AuditSelection.MedianNoneIff | packages/synthetic/src/auditor/index.ts:129-141 | no representative exactly when no result is valid, which includes no results at all |
| AuditSelection.MedianIsValidMember | packages/synthetic/src/auditor/index.ts:143-148 | the representative is one of the results and a valid one |
| AuditSelection.MedianRank | packages/synthetic/src/auditor/index.ts:143-148 | of the n valid results, at most floor(n/2) score strictly lower and at most n - floor(n/2) - 1 strictly higher |
| AuditSelection.MedianFromSortedValid | packages/synthetic/src/auditor/index.ts:143-148 | the representative is element floor(n/2) of a sorted permutation of the valid results |
| Auditors.CollectProperties | packages/synthetic/src/auditor/index.ts:107-119 | with every run succeeding, the engine is called exactly n times and the results are its answers in run order; otherwise the calls stop at the first failing one, whose error is returned |
| Auditors.CollectFailureSticks | packages/synthetic/src/auditor/index.ts:107-119 | after a failed run, asking for more runs changes nothing |
| Auditors.MedianOfAnswers | packages/synthetic/src/auditor/index.ts:121-151 | with every run succeeding, a representative exists iff some answer is valid, and it is one of those answers |
| Auditors.AuditEngine.Run | packages/synthetic/src/auditor/index.ts:112-116 | each engine call is logged with the URL, the port and the device settings, and gets the next answer |
| Auditors.Auditor.constructor | packages/synthetic/src/auditor/index.ts:19-41 | the settings are the defaults, deep-merged with the given ones when those are truthy |
| Auditors.Auditor.AuditDeviceBudget | packages/synthetic/src/auditor/index.ts:99-105 | a truthy budget installs `[translated]` and a falsy one `null` on this device only; an untranslatable budget stops the audit with nothing changed |
| Auditors.Auditor.AuditRunsCalls | packages/synthetic/src/auditor/index.ts:107-119 | the engine log only grows, by at most n calls, all with this device's settings; exactly n when every run succeeds; otherwise the last call made is the first failing one, its error is the outcome and no file is written |
| Auditors.Auditor.AuditRunsReport | packages/synthetic/src/auditor/index.ts:121-125 | with every run succeeding, a report is saved iff some answer is valid, and it is the report of one such answer; a failed save gives the device's report error |
| Auditors.Auditor.AuditBothOutcome | packages/synthetic/src/auditor/index.ts:49-54 | `run` passes iff mobile passes and then desktop passes; a failure is wrapped under "Running performance audit failed" |
| Auditors.Auditor.AuditBothStopsAfterMobileFailure | packages/synthetic/src/auditor/index.ts:49-51 | after a mobile failure the desktop settings are untouched and every engine call made used the mobile settings |
| Auditors.Auditor.RunAudits | packages/synthetic/src/auditor/index.ts:107-119 | the run loop makes the calls and returns the results that the collection specification gives |
| Auditors.Auditor.RunPerformanceAudit | packages/synthetic/src/auditor/index.ts:87-126 | one device, budget step then runs, ends in the outcome and state of the device specification |
| Auditors.Auditor.RunDeviceAudits | packages/synthetic/src/auditor/index.ts:107-125 | the runs, the selection and the report end in the outcome and state of the runs specification |
| Auditors.Auditor.Run | packages/synthetic/src/auditor/index.ts:43-55 | the mobile and desktop audits end in the outcome and state of the two-device specification |
| FileSystems.Names | packages/synthetic/src/reporter/index.ts:101 | `readdirSync` lists the entry names in listing order |
| FileSystems.Find | packages/synthetic/src/reporter/index.ts:57-63 | an entry is found iff the listing holds that name, and it is that name's entry |
| FileSystems.WriteEntry | packages/synthetic/src/reporter/index.ts:57-63 | a write fails iff the name is a directory; otherwise that name holds the content and no other name changes |
| FileSystems.WriteEntryKeepsNamesUnique | packages/synthetic/src/reporter/index.ts:57-63 | a write never gives two entries the same name |
| FileSystems.RemoveEntry | packages/synthetic/src/reporter/index.ts:106 | an unlink succeeds iff the name is a file, and no other name changes |
| FileSystems.RemoveEntryRemoves | packages/synthetic/src/reporter/index.ts:106 | after an unlink the name is gone and names stay unique |
| FileSystems.FirstDirectory | packages/synthetic/src/reporter/index.ts:103-107 | the first directory entry, before which all entries are files; none when all are files |
| FileSystems.FileSystem.MakeDirectory | packages/synthetic/src/reporter/index.ts:65-67 | `mkdirSync` adds an empty directory when missing and leaves an existing one as it is |
| FileSystems.FileSystem.ReadDirectory | packages/synthetic/src/reporter/index.ts:101 | the names of an existing directory, else ENOENT |
| FileSystems.FileSystem.WriteFile | packages/synthetic/src/reporter/index.ts:57-63 | ENOENT for a missing directory; otherwise the listing becomes the write's result, or nothing changes when the target is a directory |
| FileSystems.FileSystem.Unlink | packages/synthetic/src/reporter/index.ts:106 | ENOENT for a missing directory; otherwise the listing becomes the unlink's result, or nothing changes on failure |
| Reporters.ReporterConfigDefaults | packages/synthetic/src/reporter/index.ts:20-24 | no configuration gives the defaults; a given formats array is kept even when empty; an empty prefix or output path gets the default |
| Reporters.Sanitize | packages/synthetic/src/reporter/index.ts:78-79 | the result has only ASCII letters, digits and `-`, never two `-` in a row; it is empty iff the input is; it ends in `-` iff the input ends outside `[A-Za-z0-9]` |
| Reporters.SanitizeKeepsAlnums | packages/synthetic/src/reporter/index.ts:78-79 | sanitising keeps every letter and digit, in order, and adds none |
| Reporters.SanitizeFixes | packages/synthetic/src/reporter/index.ts:78-79 | a plain name without `--` is its own sanitised form |
| Reporters.SanitizeIdempotent | packages/synthetic/src/reporter/index.ts:78-79 | sanitising twice is sanitising once |
| Reporters.SanitizeRun | packages/synthetic/src/reporter/index.ts:78-79 | a non-empty run of characters outside `[A-Za-z0-9]`, underscore included, becomes one `-` |
| Reporters.ReportFileNamePlain | packages/synthetic/src/reporter/index.ts:75-84 | a report file name has only letters, digits and `-` |
| Reporters.ReportFileNameUnique | packages/synthetic/src/reporter/index.ts:81 | names for the same URL and device at different milliseconds differ |
| Reporters.WithDirectory | packages/synthetic/src/reporter/index.ts:42-44 | after the existence check and `mkdirSync` the report directory exists |
| Reporters.SaveReportAfterMakingDirectory | packages/synthetic/src/reporter/index.ts:42-44 | creating the directory first does not change what saving does |
| Reporters.SaveReportTouchesOnlyItsDirectory | packages/synthetic/src/reporter/index.ts:38-55 | after saving, the report directory exists and no other directory changed |
| Reporters.SaveReportFailsIff | packages/synthetic/src/reporter/index.ts:48-63 | saving fails iff a requested target (`.html`, `.json`) is an existing directory |
| Reporters.SaveReportWrites | packages/synthetic/src/reporter/index.ts:48-63 | on success the `.html` file holds the HTML iff `html` is requested and the `.json` file the JSON iff `json` is; duplicate formats write nothing more; no other entry changes |
| Reporters.ClearDirectoryProperties | packages/synthetic/src/reporter/index.ts:94-108 | clearing succeeds iff the directory is missing or holds only files, and then leaves it missing or empty; only files are removed, in listing order, and no other directory changes |
| Reporters.Reporter.constructor | packages/synthetic/src/reporter/index.ts:19-26 | the configuration is resolved field by field against the defaults |
| Reporters.Reporter.WriteIfRequested | packages/synthetic/src/reporter/index.ts:48-63 | one `writeFileSync` when its format is requested, ending in the state the write specification gives |
| Reporters.Reporter.GenerateAndSaveReport | packages/synthetic/src/reporter/index.ts:38-55 | creates the directory when missing, then writes the requested formats, ending in the saving specification's outcome and tree |
| Reporters.Reporter.SaveReportFiles | packages/synthetic/src/reporter/index.ts:46-55 | the two guarded writes into an existing directory end in the saving specification's outcome and tree |
| Reporters.Reporter.CreateReport | packages/synthetic/src/reporter/index.ts:28-36 | saves the report and wraps any failure as "Creating performance report for <device> devices failed" |
| Reporters.Reporter.ClearReportFilesDirectory | packages/synthetic/src/reporter/index.ts:94-108 | the unlink loop ends in the clearing specification's outcome and tree |
| CommandRunner.Includes | packages/synthetic/src/utils/command-runner.ts:100 | `includes` holds iff the pattern occurs at some index |
| CommandRunner.TimeoutMilliseconds | packages/synthetic/src/utils/command-runner.ts:85 | the delay is the timeout in minutes times 60000 ms, and 300000 ms for the default 5 minutes (line 9) |
| CommandRunner.WorkingDirectory | packages/synthetic/src/utils/command-runner.ts:145 | the context path when given and non-empty, else the process's working directory |
| CommandRunner.FoldUndecided | packages/synthetic/src/utils/command-runner.ts:96-112 | the wait is undecided iff no event so far was decisive, and then each log is its chunks in arrival order with no flag set |
| CommandRunner.FoldDecidedSticks | packages/synthetic/src/utils/command-runner.ts:125-129 | once decided, later events change nothing (the listeners are removed) |
| CommandRunner.FirstDecisiveEventWins | packages/synthetic/src/utils/command-runner.ts:87-125 | the first pattern chunk, failing exit or timer alone decides: completed, failed or timed out; stdout includes that chunk, stderr only what came before |
| CommandRunner.ExitWithoutErrorIgnored | packages/synthetic/src/utils/command-runner.ts:114-119 | an exit with code 0 or `null` has no effect on the wait |
| CommandRunner.SplitPatternNotDetected | packages/synthetic/src/utils/command-runner.ts:100 | a pattern split over two chunks is not seen, and the wait ends with the timer |
| CommandRunner.MissingStreamsFail | packages/synthetic/src/utils/command-runner.ts:71-73 | without both streams the wait returns at once and the command fails with the bare heading |
| CommandRunner.FailureMessageSections | packages/synthetic/src/utils/command-runner.ts:42-52 | the failure message is the heading, then STDERR only if stderr is non-empty, then STDOUT only if stdout is non-empty |
| CommandRunner.CommandProcessData.constructor | packages/synthetic/src/utils/command-runner.ts:63-68 | the record starts with empty logs and both flags false |
| CommandRunner.CommandProcessData.OnStandardOutput | packages/synthetic/src/utils/command-runner.ts:96-106 | appends the chunk and sets `completed` to whether this chunk holds the pattern, resolving iff it does |
| CommandRunner.CommandProcessData.OnStandardError | packages/synthetic/src/utils/command-runner.ts:108-112 | appends the chunk to the stderr log only |
| CommandRunner.CommandProcessData.OnTimeout | packages/synthetic/src/utils/command-runner.ts:87-91 | sets only the timed-out flag |
| CommandRunner.ExitRejects | packages/synthetic/src/utils/command-runner.ts:114-119 | the exit listener rejects iff the code is neither `null` nor 0 |
| CommandRunner.Deliver | packages/synthetic/src/utils/command-runner.ts:96-119 | one event through the listeners is one step of the wait's fold |
| CommandRunner.WaitForCommandCompleteOrTimeout | packages/synthetic/src/utils/command-runner.ts:56-139 | the listeners' record equals the fold of the trace, with the timer firing when the trace ends undecided |
| CommandRunner.CommandProcess.Stop | packages/synthetic/src/utils/command-runner.ts:149-159 | the stop callback always resolves, and each call counts once |
| CommandRunner.RunCommandProcessAndWaitForComplete | packages/synthetic/src/utils/command-runner.ts:6-54 | spawns in the right directory with the right delay; passes iff completed; the stop callback is returned uncalled on success and called exactly once otherwise |
| Builders.BuildCommandRequest | packages/synthetic/src/builder/index.ts:25-41 | a missing or empty command is reported before a missing pattern; with both, the request passes them, the timeout and the context path unchanged |
| Builders.RunBuilder | packages/synthetic/src/builder/index.ts:15-44 | no process on a guard error; otherwise the runner is called once and its outcome and stop callback are returned unchanged |
| Starters.StartCommandRequest | packages/synthetic/src/starter/index.ts:25-41 | the same guards as the builder, for the start command and pattern |
| Starters.RunStarter | packages/synthetic/src/starter/index.ts:15-44 | no process on a guard error; otherwise the runner is called once and its outcome and stop callback are returned unchanged |
| ConfigValidators.CheckUrlValues | packages/synthetic/src/utils/config-validators.ts:34-38 | passes iff every URL value is a string |
| ConfigValidators.CheckBudgetUrls | packages/synthetic/src/utils/config-validators.ts:46-50 | passes iff every budget has a string `url`; reading `url` of `null`/`undefined` is a TypeError |
| ConfigValidators.ValidateIffWellFormed | packages/synthetic/src/utils/config-validators.ts:5-19 | validation passes iff `urls` is a non-empty object of strings, runs are absent or a non-NaN number of at least 1, and budgets are absent or an array of budgets with string URLs |
| ConfigValidators.FirstViolationDecides | packages/synthetic/src/utils/config-validators.ts:5-61 | each error message occurs exactly when its rule is the first violated, in the order urls, numberOfAuditRuns, budgets |
| ConfigValidators.RunCountExamples | packages/synthetic/src/utils/config-validators.ts:53-61 | 1.5 and +Infinity pass; 0.5, NaN and the string "3" fail with their messages |
| SyntheticPerformances.FirstBudgetIndex | packages/synthetic/src/index.ts:172-174 | the index of the first budget whose `url` is the URL name; none when no budget has it |
| SyntheticPerformances.BuildStepRan | packages/synthetic/src/index.ts:72-79 | the build stage runs iff `buildProjectCommand` is truthy and `skipBuildProject` falsy |
| SyntheticPerformances.StartStepRan | packages/synthetic/src/index.ts:81-88 | the start stage runs iff `startProjectCommand` is truthy and `skipStartProject` falsy |
| SyntheticPerformances.BuildStageRan | packages/synthetic/src/index.ts:133-137 | the builder's stop callback is queued only after the build succeeded |
| SyntheticPerformances.StartStageRan | packages/synthetic/src/index.ts:139-143 | the starter's stop callback is queued only after the start succeeded |
| SyntheticPerformances.UrlStageRan | packages/synthetic/src/index.ts:101-122 | per URL, authentication (iff a script path is configured) precedes the audit, and a failure skips the audit |
| SyntheticPerformances.UrlLoopFollowsPlan | packages/synthetic/src/index.ts:99-125 | URLs are handled in key order, and the first failure skips every later stage and URL |
| SyntheticPerformances.BrowserStagesFollowPlan | packages/synthetic/src/index.ts:90-125 | optional clear, then the browser (whose stop callback is queued on success), then the URLs |
| SyntheticPerformances.LaterStagesFollowPlan | packages/synthetic/src/index.ts:81-125 | the start stage followed by the browser stages run a prefix of their plan |
| SyntheticPerformances.DecidedThen | packages/synthetic/src/index.ts:81-125 | a step that succeeded followed by another: every stage but the last succeeded and the error is the last stage's, over both |
| SyntheticPerformances.UrlStageDecided | packages/synthetic/src/index.ts:102-124 | one URL's authentication and audit: the error is the outcome of the stage that raised it, with the setups created on first use |
| SyntheticPerformances.UrlLoopDecided | packages/synthetic/src/index.ts:99-125 | over the URLs, every stage run before the failing one succeeded, and the error is that stage's outcome |
| SyntheticPerformances.BrowserStagesDecided | packages/synthetic/src/index.ts:90-125 | the clear, browser and URL stages: the error is the outcome of the last stage run |
| SyntheticPerformances.LaterStagesDecided | packages/synthetic/src/index.ts:81-125 | the start stage and after: the error is the outcome of the last stage run |
| SyntheticPerformances.ValidStagesDecided | packages/synthetic/src/index.ts:65-125 | the build stage and after: the error is the outcome of the last stage run |
| SyntheticPerformances.StagesFollowPlan | packages/synthetic/src/index.ts:37-125 | a validated run executes a prefix of build, start, clear, browser, URLs, all of it when nothing failed; every stage run but the last succeeded, and the error is the environment's outcome for that last stage; exactly the succeeded stages queued their stop callbacks, in order |
| SyntheticPerformances.ValidStagesFollowPlan | packages/synthetic/src/index.ts:65-125 | the stages after validation follow the plan in the same sense, with the error the outcome of the last stage run and every earlier stage a success |
| SyntheticPerformances.TeardownRunsQueueInOrder | packages/synthetic/src/index.ts:194-202 | every queued stop callback is awaited in order; a rejecting browser callback ends the loop and is the outcome |
| SyntheticPerformances.TeardownFailureSticks | packages/synthetic/src/index.ts:197-200 | no per-callback guard: after a rejection the later callbacks are not run |
| SyntheticPerformances.InvalidConfigRunsNothing | packages/synthetic/src/index.ts:44 | a config that fails validation runs no stage and queues nothing; its error is logged and the teardown still runs |
| SyntheticPerformances.StagesKeepErrors | packages/synthetic/src/index.ts:37-125 | the stages themselves never log and never stop a process |
| SyntheticPerformances.FinishSwallowsError | packages/synthetic/src/index.ts:126-130 | the stage error, if any, is logged once and the teardown always runs |
| SyntheticPerformances.RunSwallowsStageErrors | packages/synthetic/src/index.ts:36-131 | `run` fails only when a stop callback rejects, and then only with the browser's; with no rejection every queued callback runs; at most one error is logged |
| SyntheticPerformances.SyntheticPerformance.constructor | packages/synthetic/src/index.ts:36-131 | the driver starts with no auditor, no authenticator and an empty queue |
| SyntheticPerformances.SyntheticPerformance.BuildProject | packages/synthetic/src/index.ts:133-137 | ends in the state and error the build-stage specification gives |
| SyntheticPerformances.SyntheticPerformance.StartProject | packages/synthetic/src/index.ts:139-143 | ends in the state and error the start-stage specification gives |
| SyntheticPerformances.SyntheticPerformance.AuthenticateProject | packages/synthetic/src/index.ts:145-151 | the authenticator is created once, from the browser's WebSocket URL and the script path, and then reused; its outcome is the stage's error |
| SyntheticPerformances.SyntheticPerformance.AuditProject | packages/synthetic/src/index.ts:153-177 | the auditor is created once with the port and audit config, and each URL is audited with its first matching budget |
| SyntheticPerformances.SyntheticPerformance.RunUrl | packages/synthetic/src/index.ts:101-122 | one URL's stages end as the URL-stage specification says |
| SyntheticPerformances.SyntheticPerformance.AuditUrls | packages/synthetic/src/index.ts:99-125 | the `for…of` loop over the URL names ends as the URL-loop specification says |
| SyntheticPerformances.SyntheticPerformance.UrlLoopErrorSticks | packages/synthetic/src/index.ts:101-125 | once a URL failed, the later URLs change nothing |
| SyntheticPerformances.SyntheticPerformance.LaunchAndAudit | packages/synthetic/src/index.ts:90-125 | clear, browser and URLs end as the browser-stage specification says |
| SyntheticPerformances.SyntheticPerformance.RunStages | packages/synthetic/src/index.ts:37-125 | the `try` block ends as the stages specification says |
| SyntheticPerformances.SyntheticPerformance.StopRunningProcesses | packages/synthetic/src/index.ts:194-202 | the queue loop runs the callbacks the teardown specification gives, with its outcome |
| SyntheticPerformances.SyntheticPerformance.Run | packages/synthetic/src/index.ts:36-131 | `run` ends in the outcome and state of the run specification |
| Paths.ResolveAgainst | packages/cli/src/commands/audit/handler.ts:49-52 | `path.resolve(path.join(dir, p))` for a string p; Node's type error otherwise |
| AuditHandlers.ResolvePath | packages/cli/src/commands/audit/handler.ts:39-89 | `undefined` without a config file path; otherwise the CLI value, else the file's value, resolved against the file's directory; else `undefined` (script path) or the directory (context path) |
| AuditHandlers.CliPathWins | packages/cli/src/commands/audit/handler.ts:48-53 | a CLI value makes the file's value irrelevant |
| AuditHandlers.FilePathStandsInForCli | packages/cli/src/commands/audit/handler.ts:55-60 | without a CLI value, the file's value is resolved exactly as a CLI value would be |
| AuditHandlers.ConfigFromFile | packages/cli/src/commands/audit/handler.ts:91-97 | the file's `synthetic` section when truthy, else `undefined` |
| AuditHandlers.CliArguments | packages/cli/src/commands/audit/handler.ts:16-19 | `configFile` and `configFilePath` are gone and every other argument is unchanged |
| AuditHandlers.AssembledConfigFields | packages/cli/src/commands/audit/handler.ts:21-27 | the file section (or `{}`) is merged with the CLI arguments second; the two resolved paths overwrite the merge; every other field is the merge's; assembly fails iff a resolver throws |
| AuditHandlers.NoConfigFileDropsPaths | packages/cli/src/commands/audit/handler.ts:26-27 | without a config file both paths end up `undefined`, even when given on the command line |
| AuditHandlers.AuditCommandHandler | packages/cli/src/commands/audit/handler.ts:8-37 | exit 0 with nothing printed after `run` completes; exit 1 with the "Audit command failed" report only when an error escapes |
| InitialConfigs.DefaultConfigFilePath | packages/cli/src/utils/get-initial-config.ts:27-35 | the resolved default file iff it exists |
| InitialConfigs.ConfigFilePathFromCliArgument | packages/cli/src/utils/get-initial-config.ts:37-51 | none without `--config`; the resolved path when it exists; otherwise "Config file path … does not exist" |
| InitialConfigs.ConfigFilePathPrecedence | packages/cli/src/utils/get-initial-config.ts:20-25 | a `--config` path decides alone, even when the default file exists; without one the default is taken when it exists; a chosen path always exists |
| InitialConfigs.ExtendsResolution | packages/cli/src/utils/get-initial-config.ts:53-80 | no `extends`: the file as parsed; with one, the parent is resolved against the file's directory, a missing parent throws, and the child minus `extends` is merged over the parent read recursively |
| InitialConfigs.DeeperStackSameResult | packages/cli/src/utils/get-initial-config.ts:72 | a result other than a stack overflow does not depend on the stack depth |
| InitialConfigs.CyclicExtendsOverflow | packages/cli/src/utils/get-initial-config.ts:72 | there is no cycle check: a cyclic `extends` chain overflows the stack however deep it is |
| InitialConfigs.InitialConfigFromFile | packages/cli/src/utils/get-initial-config.ts:8-18 | fails when choosing the path fails; otherwise carries the chosen path, which exists, and exactly the contents reading that file gives (`undefined` when there is none); fails exactly when that read fails |
| ClientPerformance.IsMobileDevice | packages/client/src/performance/utils.ts:1-7 | mobile iff the user agent contains `Mobi`, case-sensitively |
| ClientPerformance.MobileExamples | packages/client/src/performance/utils.ts:2 | an iPhone agent is mobile; `mobi` in lower case is not |
| ClientPerformance.Filter | packages/client/src/performance/index.ts:305-313 | keeps exactly the elements also in the supported list, in their order |
| ClientPerformance.ObservedEntryTypes | packages/client/src/performance/index.ts:305-313 | the defaults in default order when support is unknown or empty; otherwise exactly the supported defaults, in default order |
| ClientPerformance.StartObserverEffect | packages/client/src/performance/index.ts:104-134 | a constructed observer is connected, and queued when tracked; a throwing constructor only logs |
| ClientPerformance.ObserveEntryTypeEffect | packages/client/src/performance/index.ts:73-102 | one `switch` branch creates its store, connects its observers unless construction throws, and queues only its tracked observer |
| ClientPerformance.ObservedStores | packages/client/src/performance/index.ts:73-102 | the long-task, element and layout-shift stores exist exactly for the observed types |
| ClientPerformance.ObservedConnections | packages/client/src/performance/index.ts:73-102 | the observers connected are those of the observed types, unless construction throws |
| ClientPerformance.ObservedForDisconnect | packages/client/src/performance/index.ts:73-102 | only tracked observers are queued for the first-input disconnect |
| ClientPerformance.InitFromScratch | packages/client/src/performance/index.ts:24-102 | after `init` the device follows the user agent, network information is set only with a connection, the long-task/element/layout-shift stores start at zero or empty iff observed, every other metric is `null`, nothing is marked |
| ClientPerformance.PaintTimeIsLastMatch | packages/client/src/performance/index.ts:136-154 | the paint time is the start time of the last entry with the metric's name, and is unchanged without one |
| ClientPerformance.LayoutShiftAdds | packages/client/src/performance/index.ts:216-238 | the layout shift grows by exactly the values of entries without recent input |
| ClientPerformance.LayoutShiftBatches | packages/client/src/performance/index.ts:216-238 | two batches add up to their concatenation |
| ClientPerformance.LongTasksAfter | packages/client/src/performance/index.ts:240-271 | the count grows by the batch length; the first task's duration and start come from the batch's first entry only while the stored duration is 0 |
| ClientPerformance.FirstLongTaskSticks | packages/client/src/performance/index.ts:240-271 | once a non-zero first task is stored, no later batch changes it, and the count is the sum of the batch lengths |
| ClientPerformance.ElementTimingsFirstWriteWins | packages/client/src/performance/index.ts:273-297 | names already stored (custom measures included) are kept; each new identifier gets its first entry's start time, except names `Object.prototype` already answers for (`toString`, `constructor`, …), which are never stored; nothing else is added |
| ClientPerformance.MeasuredDurationSome | packages/client/src/performance/index.ts:332-355 | a duration is found iff `getEntriesByName` returned a `measure` entry |
| ClientPerformance.StartMeasureIdempotent | packages/client/src/performance/index.ts:315-330 | starting twice is starting once; a start stores the name (unless `Object.prototype` answers for it) and adds at most one mark |
| ClientPerformance.InheritedNameNeverMeasured | packages/client/src/performance/index.ts:315-355 | a name `Object.prototype` answers for (`toString`, `constructor`, …) is never started: start then stop leaves the timeline and the store as they were |
| ClientPerformance.StopMeasureOnce | packages/client/src/performance/index.ts:332-355 | a stop does nothing without a store, for a name never started or for one already measured; after a stop that found a measure, every later stop does nothing |
| ClientPerformance.StartsThenStopsMeasureOnce | packages/client/src/performance/index.ts:315-355 | for a name neither stored nor inherited from `Object.prototype`, three starts then three stops mark the start and the end once each, measure once and store the duration |
| ClientPerformance.Performance.constructor | packages/client/src/performance/index.ts:24-43 | every metric starts as `null`, with no observers, nothing logged and nothing marked |
| ClientPerformance.Performance.Init | packages/client/src/performance/index.ts:45-49 | the `forEach` over observed types ends in the `init` specification's state |
| ClientPerformance.Performance.ObserveType | packages/client/src/performance/index.ts:73-102 | one `switch` branch ends in the branch specification's state |
| ClientPerformance.Performance.StartObserving | packages/client/src/performance/index.ts:104-134 | one observer's `try`/`catch` ends in the observer specification's state |
| ClientPerformance.Performance.OnNavigationEntries | packages/client/src/performance/index.ts:104-134 | the first entry's four timings are stored and the navigation observer disconnects itself |
| ClientPerformance.Performance.OnPaintEntries | packages/client/src/performance/index.ts:136-174 | every entry with the metric's name sets it, and the observer disconnects |
| ClientPerformance.Performance.OnFirstInputEntries | packages/client/src/performance/index.ts:176-197 | the delay is `processingStart - startTime` of the first entry; that observer and every tracked one are disconnected |
| ClientPerformance.Performance.DisconnectPerformanceObservers | packages/client/src/performance/index.ts:299-303 | every tracked observer is disconnected and nothing else changes |
| ClientPerformance.Performance.OnLargestContentfulPaintEntries | packages/client/src/performance/index.ts:199-214 | the last entry's start time overwrites the metric |
| ClientPerformance.Performance.OnLayoutShiftEntries | packages/client/src/performance/index.ts:216-238 | the running sum is updated as the layout-shift specification says; nothing else changes |
| ClientPerformance.Performance.OnLongTaskEntries | packages/client/src/performance/index.ts:240-271 | the long-task store is updated as the long-task specification says; nothing else changes |
| ClientPerformance.Performance.OnElementEntries | packages/client/src/performance/index.ts:273-297 | the shared map is updated first-write-wins; nothing else changes |
| ClientPerformance.Performance.StartPerformanceMeasure | packages/client/src/performance/index.ts:315-330 | ends in the start-measure specification's state |
| ClientPerformance.Performance.StopPerformanceMeasure | packages/client/src/performance/index.ts:332-355 | ends in the stop-measure specification's state |
| PerfectumClients.LoggingEnabled | packages/client/src/index.ts:25-33 | a missing config does not log; otherwise logging follows the truthiness of `logging` |
| PerfectumClients.PerfectumClient.constructor | packages/client/src/index.ts:10-11 | both flags start unset, with no store |
| PerfectumClients.PerfectumClient.Init | packages/client/src/index.ts:13-52 | idempotent once initialised; a no-op in an unsupported environment; otherwise a fresh store after `init` and both flags set, unless the monitoring call throws, which is logged and leaves `isInitialized` unset |
| PerfectumClients.PerfectumClient.StartMeasure | packages/client/src/index.ts:54-58 | forwards to the store iff both flags are set; a no-op otherwise |
| PerfectumClients.PerfectumClient.StopMeasure | packages/client/src/index.ts:60-64 | forwards to the store iff both flags are set; a no-op otherwise |
| PerfectumClients.MeasureOnce | packages/client/src/__tests__/perfectum-client.test.ts:156-207 | through the client, repeated starts and repeated stops (three of each) give one start mark, one end mark, one measure and the stored duration; a name inherited from `Object.prototype` gives no mark and no duration |
| PerfectumClients.UnsupportedEnvironment | packages/client/src/__tests__/perfectum-client.test.ts:99-143 | in an unsupported environment both flags stay unset, no store is created and measures do nothing |

## Left out

- `numberOfAuditRuns = +Infinity` passes validation, and the source then loops without end. The run count is finite here: `Auditors.RunCount` and every member that uses it require a run count other than +Infinity.
- `DEFAULT_NUMBER_OF_AUDIT_RUNS` is 1. The reporter's default formats, prefix and output path are parameters, and so is the default config file name. Their constants files are not part of this model.
- `deepmerge`, `path.dirname`/`join`/`resolve`, `process.cwd()`, `Date.now()`, `JSON.stringify` and the HTML report generator are parameters or uninterpreted functions. `JSON.parse` is not modelled: files hold parsed values, so a parse error cannot occur.
- `fs.existsSync` is modelled as "is a directory" for the report directory and "is a key of the file map" for configuration files. `mkdirSync` creates only the directory itself, not missing parents.
- Node's error messages are reduced to their first sentence. For example, the "Received …" part of a `path` TypeError is dropped.
- The depth of the call stack is a parameter of `readConfigFile`: a cyclic `extends` chain ends in a stack overflow after that many calls.
- Deleting `configFile` and `configFilePath` from `argv` is modelled on a copy. No other code reads `argv` afterwards.
- The auditor's default settings object is modelled as an immutable value. The source shares and mutates one module-level object.
- Stream events are modelled one at a time in arrival order. Two events in the same tick, and a failed `tree-kill` (only logged), are not modelled.
- Configuration values of the wrong type are modelled as missing (`skip*` flags, commands, patterns, timeouts).
- Clearing the report directory, launching and stopping the browser, authenticating and auditing a URL are outcomes given by the environment. The browser and authenticator are not part of this model.
- Stop callbacks are labels. Only the browser's can reject, because the runner's callback always resolves.
- Only error output is modelled. Logger titles, progress lines and warnings are not.
- The client's `maxPaintTime`: `packages/client/src/index.ts:34` passes `{maxPaintTime}` as a first argument to a constructor that takes only a logger. `Performance` here gets the client's logger.
- `PerfectumClient.Init`: the monitoring service's unload hook and `sendBeacon` are not modelled. Its `window.addEventListener` call is an input that may throw. Nothing else in `init` is modelled as throwing.
- Environment probing (`isSupportedEnvironment`) is a boolean input.
- Observer construction failure is one input for every observer. The source could fail per observer.
- `PerformanceObserver` registration and `observe`/`disconnect` are modelled as a set of connected observers.
- The observer callbacks that read `getEntries()[0]` require a non-empty batch, which the browser guarantees.
- `getMetrics` returns the store object unchanged; `Performance.State()` gives it.
- Timings are reals: IEEE rounding is not modelled. JSON key order is the order of an association list.
- A flag JavaScript leaves `undefined` is `false`.
