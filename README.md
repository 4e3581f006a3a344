# Automatic grading for a software-design practicum, in Dafny

This project models the grading system of a university software-design
practicum. Each student's repository is cloned under `students/<id>/repo`.

- A backend scheduler pulls every repository at a fixed interval and grades
  each one that pulled successfully.
- It records a pass, fail or unknown verdict per student. The verdict comes
  from the `pass`/`fail` marker files that grading leaves in the student's
  grading folder.
- The verdicts are broadcast to the connected web clients.

Around that core sit:

- the grading scripts a week's folder carries (Python, C++ and a driver template);
- the week-1 Java auto-grader: a basic grader wrapped in pattern-checking
  decorators, which writes a `results.pass` or `results.fail` report;
- the week-2 result and decorator base classes;
- a batch script that grades every student by counting Java files;
- two generators that turn the class roster into the process list of
  repository URLs.

The model works on an abstract file system. `FileSystem.Fs` holds a map
from paths to directories and files, and a clock that stamps every write.
External commands are represented by their outcome and by the files they
write. Each operation is a method proved against a function of the old state.
The lemmas beside each function state what the source promises:

- which marker grading leaves;
- that reading a status back gives the verdict grading returned;
- that a report lists every message;
- that merging results keeps the counters consistent;
- which roster rows reach the process list;
- which files each program may write.

Modules:

- **Wrappers** and **Strings**: Python and Java string helpers.
- **FileSystem**: paths, globbing, `mkdir`, and the `Fs` class.
- **Grader**: `backend/grader.py`.
- **GitManager**: `backend/git_manager.py`.
- **Scheduler**: `backend/scheduler.py`.
- **MarkerProtocol**: what every grading script does with its two markers.
- **GradeScripts**: the four Python grading scripts.
- **Week01Results**, **Week01Grading** and **Week01Report**:
  - `GradeResult`;
  - the chain of graders and `Week1AutoGrader`;
  - `ResultFileGenerator`.
- **Week02Results** and **Week02Decorator**: the week-2 `GradeResult` and `GraderDecorator`.
- **GradeAllStudents**: `grade_all_students.py`.
- **Roster**: what the generators share, namely `csv.DictReader` rows,
  `str.format` with `{git_id}`, and the process-list layout.
- **ProcessList**: `generate_process_list.py`.
- **BootstrapProcessList**: `bootstrap/generate_process_list.py`.

Where the documentation and the code differ, the model follows the code:

- The scheduler warns about an overrun cycle when the duration is at least
  the interval, not only when it is longer.
- With no configured week pattern, grading uses `week{week}` while the
  status lookup uses `week{week:02d}`. For weeks 0–9 they name different
  folders (`Grader.DefaultWeekFoldersAgree`).
- Without the week folder, the status lookup reads legacy markers in the
  grading folder, but the verdict looks for them one folder up.
- `grade_all_students.py` counts Java files directly in the problem folder
  twice.
- A student's last update is `None` when no report exists, because the key
  is always present in the status dictionary.

## Model

| member | source | states |
|---|---|---|
| Grader.DefaultWeekFoldersAgree | backend/grader.py:122-126 | With no week pattern configured, grading and status lookup pick the same week folder exactly when the week lies outside 0..9 |
| Strings.ZeroPaddedTwo | backend/grader.py:487-488 | `{week:02d}` differs from `{week}` exactly for the weeks 0..9 |
| Grader.Detected | backend/grader.py:198-208 | None exactly when no language has a source file; otherwise the first language, in configuration order, that has one |
| Grader.DetectionIsRecursive | backend/grader.py:204-205 | The direct glob finds nothing the recursive glob misses |
| Grader.DetectLanguage | backend/grader.py:198-208 | Returns the index of the detected language, or None when no language has a source file |
| Grader.Take | backend/grader.py:285-293 | `stdout[:200]` is a prefix of the output that is at most 200 characters long, and it is all of the output when that is shorter |
| Grader.NoLanguageBucket | backend/grader.py:325-412 | `_execute_grading`'s own "no language" message gets the report meant for it |
| Grader.CompilationBucket | backend/grader.py:331-370 | A compilation-failure message shorter than the no-language phrase gets the compilation report |
| Grader.ExecutionErrorBucket | backend/grader.py:370-412 | An exception raised during execution never ends up in the generic report |
| Grader.CleanupResultFiles | backend/grader.py:295-303 | Deletes both report files when present; nothing else changes |
| Grader.CompileCode | backend/grader.py:210-239 | Without a compile command nothing runs and compilation succeeds; otherwise success is exit code 0 and the command's files are applied |
| Grader.RunTests | backend/grader.py:241-293 | Runs grade.py when the grading folder has one, otherwise a non-empty run command, and with neither fails with the "no test script" message; the chosen command's files are applied, success is its exit code 0, and the message is the one for its timeout, exit or exception |
| Grader.ScriptPreferred | backend/grader.py:246-264 | With a grade.py, neither the run command nor what it would do changes the outcome: the files, success and message are grade.py's |
| Grader.CommandWithoutScript | backend/grader.py:265-281 | Without a grade.py, what grade.py would do never matters, and a non-empty run command gives its own files, success and message |
| Grader.CreatePassResult | backend/grader.py:305-323 | Writes the pass report and changes nothing else |
| Grader.CreateFailResult | backend/grader.py:325-412 | Writes the fail report in the bucket the message selects; only the generic report quotes the message |
| Grader.ExecuteGrading | backend/grader.py:163-196 | With no language, a failed compilation, failing tests or an exception, the fail report is written and the verdict is fail; passing tests write the pass report |
| Grader.GradeStudent | backend/grader.py:107-161 | Missing folders give unknown with no write; otherwise the old reports are deleted, grading runs, and an exception gives fail |
| Grader.GradeUnknownIff | backend/grader.py:132-142 | The verdict is unknown exactly when the repository, problem or grading folder is missing, and then no file changes |
| Grader.GradePassIff | backend/grader.py:163-196 | Pass exactly when the folders exist, nothing raises, a language is detected, its compile command succeeds (if any), and a test script exists and the chosen one (grade.py first, else the run command) exits with 0 |
| Grader.GradeReadBack | backend/grader.py:414-470 | If the compile command never writes the pass report and a failing test command does not either (a passing one, like grade.py, may), reading the verdict back after grading gives the verdict grading returned |
| Grader.GradeMarkers | backend/grader.py:146-161 | Under the same conditions, a graded run leaves the report of its verdict, and a failed run leaves no pass report |
| Grader.FirstMatchMeaning | backend/grader.py:436-470 | The lookup is unknown exactly when no file it consults exists; otherwise it is the meaning of the earliest existing one |
| Grader.DetermineResult | backend/grader.py:414-470 | Pass or fail by the first existing report (week folder first, then the legacy files); when both reports exist the verdict is pass and the fail report is deleted; unknown when none exists |
| Grader.RulePaths | backend/grader.py:436-466 | The files the verdict consults, in order, one per rule |
| Grader.FirstMtimeIffMatch | backend/grader.py:518-547 | A timestamp is found exactly when one of the consulted files exists |
| Grader.WeekStatusConsistent | backend/grader.py:472-552 | When the week folder exists, the status has a timestamp exactly when its verdict is not unknown |
| Grader.CandidatesFollowRules | backend/grader.py:518-547 | With the week folder present, the timestamp lookup consults the same six files as the verdict, in the same order |
| Grader.LegacyStatusInconsistent | backend/grader.py:445-455 | Without the week folder, a legacy marker in the grading folder gives a timestamp while the verdict stays unknown |
| Grader.LastModified | backend/grader.py:518-547 | The modification time of the first report that exists: the week folder first, then the legacy files; None when there is none |
| Grader.GetStudentStatus | backend/grader.py:472-552 | Returns the status dictionary: an unknown verdict and no timestamp when the folders are missing, otherwise the verdict and then the timestamp read afterwards |
| Grader.RulesUnder | backend/grader.py:436-466 | Every file the verdict consults lies under the student's own folder |
| Grader.ReadStatusLocal | backend/grader.py:472-552 | A student's status depends only on the files under that student's folder |
| Grader.ReadStatusConfined | backend/grader.py:472-552 | Reading a status changes nothing outside the student's folder |
| Grader.AllWeeksCoverOneWeek | backend/grader.py:568-585 | Cleaning up all weeks removes at least the files that cleaning up one week removes |
| Grader.CleanupOldResults | backend/grader.py:554-588 | Without a grading folder nothing changes; otherwise exactly the matching files (one week's, or every week's) are deleted |
| GitManager.PullOutcome | backend/git_manager.py:27-92 | Success exactly when the folder has `.git` and the pull exits 0; a success has a message and no error, a failure an error and no message; the stripped output is used when it is non-empty |
| GitManager.PullRepository | backend/git_manager.py:27-92 | Returns the outcome for the folder's `.git`, the pull's status and the timeout; without `.git` no file changes, otherwise the pull's writes inside the working copy are applied and nothing outside it changes |
| GitManager.PullChangesOnlyRepo | backend/git_manager.py:27-92 | A pull never changes a path outside its working copy; a successful one leaves exactly what git wrote there; without `.git` nothing changes |
| GitManager.UpdateAllRepositories | backend/git_manager.py:94-152 | No students folder gives no results and no change; otherwise one result per student folder that has a `repo` (a task that raised gives its error, any other task gives its pull), and the files are those after every pull task |
| GitManager.PullAll | backend/git_manager.py:124-146 | Running the pull tasks one by one records every student's result and leaves the files of all their pulls |
| GitManager.PullTask | backend/git_manager.py:124-146 | One task after the others: its recorded result, and the files with its own pull added |
| GitManager.PulledAmongMeaning | backend/git_manager.py:124-146 | After a set of pull tasks, a file is present exactly when it was before or one of those pulls wrote it in its own working copy, and then it holds what that pull wrote |
| GitManager.OthersKeepGit | backend/git_manager.py:124-133 | Other students' pulls never create or remove a student's `.git` entry, so the order in which the pulls run does not change whether a pull runs |
| GitManager.PullOneMore | backend/git_manager.py:124-146 | Adding one task without an error adds exactly the effect of its pull on the files so far |
| GitManager.FailedTaskWritesNothing | backend/git_manager.py:140-146 | A task that raised leaves the files as they were |
| GitManager.TrackedHaveRepo | backend/git_manager.py:111-115 | Every student with a result has a directory holding the `repo` entry that grading uses |
| GitManager.CheckRepositoryStatus | backend/git_manager.py:154-213 | Exists, is a git repository, last commit (when `git log` exits 0) and uncommitted changes (when `git status --porcelain` prints something) |
| Scheduler.SleepTime | backend/scheduler.py:149-156 | The sleep is never negative; it is 0 exactly when the cycle took at least the interval; otherwise cycle plus sleep equals the interval |
| Scheduler.CycleGradesEveryPull | backend/scheduler.py:175-189 | On the files the pulls leave, every student who pulled successfully has a repository, so the existence check never skips anyone |
| Scheduler.GradeFold | backend/scheduler.py:191-194 | One verdict per graded student, exactly the students in the order |
| Scheduler.RecordedGrade | backend/scheduler.py:211-215 | Recording one more verdict keeps the records those of the verdicts so far |
| Scheduler.ReadFold | backend/scheduler.py:112-123 | One status per student read, exactly the students in the order |
| Scheduler.ReadInOrderIndependent | backend/scheduler.py:112-123 | Reading the statuses one after another gives each student the status and files of their own read alone, and leaves other students' files unchanged |
| Scheduler.RecordsReadAlone | backend/scheduler.py:112-123 | The records written at start-up and on a week change are those of each student's own status |
| Scheduler.ReadStatuses | backend/scheduler.py:112-123 | Reads every student once, in some order, each status as the read function gives it |
| Scheduler.CountsPartition | backend/scheduler.py:197-200 | Pass, fail and unknown counts add up to the number of students |
| Scheduler.CyclesRun | backend/scheduler.py:138-160 | The loop runs up to and including the first cycle in which stop is requested |
| Scheduler.CyclesRunPrefix | backend/scheduler.py:138-160 | A stop request at cycle i ends the loop after i+1 cycles; without one, more than i cycles run |
| Scheduler.GradingScheduler.constructor | backend/scheduler.py:20-48 | Each setting is the configured value or its default (week 1, weeks [1], interval 60, both timeouts 30); there are no records, no connections, and the scheduler is not running |
| Scheduler.GradingScheduler.InitializeStudentStates | backend/scheduler.py:103-125 | No students folder leaves everything unchanged; otherwise one fresh record per student directory, from its own status for the current week |
| Scheduler.GradingScheduler.SetCurrentWeek | backend/scheduler.py:224-240 | Refused (where the source raises) exactly when the week is not available; otherwise sets the week and re-reads every known record, keeping its git fields |
| Scheduler.GradingScheduler.GetCurrentStates | backend/scheduler.py:220-222 | Returns the records |
| Scheduler.GradingScheduler.GetCurrentWeek | backend/scheduler.py:242-244 | Returns the current week |
| Scheduler.GradingScheduler.GetAvailableWeeks | backend/scheduler.py:246-248 | Returns the configured weeks |
| Scheduler.GradingScheduler.AddWebsocketConnection | backend/scheduler.py:250-253 | Adds the connection; nothing else changes |
| Scheduler.GradingScheduler.RemoveWebsocketConnection | backend/scheduler.py:255-258 | Removes the connection if present; nothing else changes |
| Scheduler.GradingScheduler.BroadcastUpdates | backend/scheduler.py:260-280 | With connections, every one is sent the records and those whose send fails are dropped; with none, nothing is sent |
| Scheduler.GradingScheduler.Stop | backend/scheduler.py:282-285 | Not running afterwards; nothing else changes |
| Scheduler.GradingScheduler.Shutdown | backend/scheduler.py:287-302 | Stops, closes every connection and forgets them all |
| Scheduler.GradingScheduler.RunMonitoringCycle | backend/scheduler.py:164-202 | Pulls all repositories, records the git outcome of known students, and grades with `grade_student` exactly the students who pulled successfully and have a repository, in some order on the pulled files; the files and verdicts are those of that order, and the records get the verdicts |
| Scheduler.GradingScheduler.RecordPulls | backend/scheduler.py:175-189 | Known students get their git status and pull time; the students to grade are those with a successful pull and a repository |
| Scheduler.GradingScheduler.GradeAll | backend/scheduler.py:191-194 | Grades exactly the given students, in some order, and records each known student's verdict |
| Scheduler.GradingScheduler.GradeStudentAsync | backend/scheduler.py:204-218 | Grades the student; a known student's record gets the verdict, the time and the week |
| Scheduler.GradingScheduler.StartMonitoring | backend/scheduler.py:127-162 | Initialises the records, then runs cycles until the first stop request; the files, records and connections after each cycle follow from those before it by that cycle's outcome; each cycle is followed by the sleep the interval leaves, or 10 seconds after an error; the scheduler is still running exactly when no stop was requested |
| Scheduler.GradingScheduler.RunCycle | backend/scheduler.py:139-160 | One pass of the loop: nothing changes when it raises before the pulls; otherwise the pulls, grading and records of `_run_monitoring_cycle`, then a broadcast that drops the failed connections when it completes and drops none when it raises |
| Scheduler.GradingScheduler.MonitorsExtend | backend/scheduler.py:138-160 | A trace of the loop extended by one more cycle's outcome is a trace of the loop |
| MarkerProtocol.ExitCode | grading/week01/grade.py:119-121 | The exit status is 0 exactly on success |
| MarkerProtocol.RunStepsKeepsAbsent | grading/grade_template.py:33-36 | Steps that write no marker do not create one |
| MarkerProtocol.ExactlyOneMarker | grading/week01/grade.py:33-116 | If every command writes only the marker matching its outcome (a pass marker only as a successful last step), exactly one marker exists after the script: the pass marker exactly when every step succeeded |
| MarkerProtocol.RunStepsHonest | grading/week01/grade.py:33-116 | With such commands, a pass marker after the steps means they all succeeded, and a fail marker means one failed |
| MarkerProtocol.UntouchedIsHonest | grading/grade_template.py:33-92 | Commands that write no marker at all meet that condition |
| MarkerProtocol.OkIffEveryStepOk | grading/grade_template.py:38-92 | A script succeeds exactly when each step succeeds on the files left by the steps before it |
| MarkerProtocol.StatesBefore | grading/grade_cpp_template.py:36-105 | One state per step; the first is the initial files, and each later one is the previous state after the previous step |
| MarkerProtocol.StopsAtFirstFailure | grading/grade_cpp_template.py:36-105 | Once a step fails, the steps after it do not run |
| GradeScripts.Week01Grade | grading/week01/grade.py:15-121 | The wrong number of arguments gives exit 1 with no change; otherwise the old markers are deleted, the auto-grader is compiled, student files are found and compiled, the auto-grader runs, and the marker and exit status follow the outcome |
| GradeScripts.PythonGrade | grading/grade_template.py:15-108 | Same usage check; then a .py file must exist, then main.py, and main.py must run with exit 0 |
| GradeScripts.CppGrade | grading/grade_cpp_template.py:13-118 | Same usage check; then a .cpp/.cc file must exist, the compile must succeed, the executable must exist and run with exit 0; afterwards the executable is deleted when it is a file, and a directory of that name is kept |
| GradeScripts.RemoveExecutable | grading/grade_cpp_template.py:106-113 | A `main` file is gone, a `main` directory is kept, and no other path changes |
| GradeScripts.DriverMain | grading/driver_template.py:35-60 | Always exit 0; deletes both markers and touches `pass` or `fail` by the evaluation |
| GradeScripts.EvaluateStudentCode | grading/driver_template.py:11-33 | Succeeds exactly when `../repo/main.py` exists and the check does not raise |
| GradeScripts.Week01ExitMatchesMarker | grading/week01/grade.py:33-121 | If the two compilations write no marker and Week1AutoGrader writes only the marker matching its exit status, the exit status is 0 exactly when the pass marker is left, and exactly one marker is left |
| GradeScripts.Week01CompileFailureStops | grading/week01/grade.py:49-53 | A failed grader compilation leaves the fail marker and runs nothing else |
| GradeScripts.CppNoSourceFails | grading/grade_cpp_template.py:38-43 | With no .cpp or .cc file the script fails before compiling anything |
| Week01Results.FreshConsistent | grading/week01/GradeResult.java:17-24 | A new result is passed, with no tests and empty lists, and it is consistent |
| Week01Results.TestKeepsConsistent | grading/week01/GradeResult.java:26-36 | addTest keeps the result consistent, counts the test, counts it as passed exactly when it passed, logs it with its tag, and never turns a failed result back to passed |
| Week01Results.DetailKeepsConsistent | grading/week01/GradeResult.java:38-41 | addDetail logs the line with the INFO prefix and changes nothing else |
| Week01Results.ReplayConsistent | grading/week01/GradeResult.java:17-41 | Any sequence of calls keeps a result consistent |
| Week01Results.AddAllEffect | grading/week01/GraderDecorator.java:44-74 | A run of tests with the same outcome adds its count, its messages and its tagged lines |
| Week01Results.AddPassed | grading/week01/GraderDecorator.java:44-74 | A run of passed tests is counted, listed and logged; nothing else changes |
| Week01Results.AddFailed | grading/week01/GraderDecorator.java:44-74 | A non-empty run of failed tests is counted, listed and logged, and it fails the result |
| Week01Results.MergedContents | grading/week01/GraderDecorator.java:44-74 | The merge holds both inputs' messages in order, counts them all, passes exactly when neither input has a failure, and logs only the re-added tests |
| Week01Results.MergedSums | grading/week01/GraderDecorator.java:44-74 | On consistent inputs, the merged counters are the sums, and the merge passes exactly when both inputs pass |
| Week01Results.MergedDropsInfo | grading/week01/GraderDecorator.java:44-74 | No INFO line of either input survives the merge |
| Week01Results.MergedLosesDetail | grading/week01/GraderDecorator.java:44-74 | A detail logged on the original result is gone after a merge |
| Week01Results.GradeResult.constructor | grading/week01/GradeResult.java:17-24 | A new result is in the fresh state |
| Week01Results.GradeResult.AddTest | grading/week01/GradeResult.java:26-36 | The new state is the old one with the test added |
| Week01Results.GradeResult.AddDetail | grading/week01/GradeResult.java:38-41 | The new state is the old one with the detail added |
| Week01Results.AddEach | grading/week01/GraderDecorator.java:47-60 | The result is updated by each of the tests in turn |
| Week01Results.MergeResults | grading/week01/GraderDecorator.java:44-74 | Returns a fresh result in the merged state; neither input changes |
| Week01Grading.CategoryByExtras | grading/week01/GraderDecorator.java:76-79 | The category depends only on the decorators and their order, and it starts with "Basic Validation" |
| Week01Grading.Decorate | grading/week01/GraderDecorator.java:11-15 | A null grader is rejected; otherwise the decorator wraps it |
| Week01Grading.FullGraderExtras | grading/week01/Week1AutoGrader.java:140-146 | The full chain wraps the basic grader in the factory, singleton and integration decorators, in that order |
| Week01Grading.FullGraderCategory | grading/week01/IntegrationGrader.java:243-246 | The full chain's category names the three decorators in the order they wrap the basic grader |
| Week01Grading.BuildGraderChain | grading/week01/Week1AutoGrader.java:84-98 | Builds the same chain as createFullGrader |
| Week01Grading.BasicTallyFacts | grading/week01/BasicGrader.java:10-28 | Exactly one test, passed exactly for a non-null, non-blank package; the package is logged first, and a pass logs the completion |
| Week01Grading.BasicCategoryIs | grading/week01/BasicGrader.java:31-33 | The basic category is "Basic Validation" |
| Week01Grading.BasicGrade | grading/week01/BasicGrader.java:10-28 | Returns a fresh result carrying the basic tally |
| Week01Grading.ChainGradeFacts | grading/week01/GraderDecorator.java:18-28 | A chain yields a result exactly when no decorator throws; the result is consistent, counts the basic test and every decorator test, passes only for a valid package, and keeps no INFO line once merged |
| Week01Grading.PerformAdditionalGrading | grading/week01/GraderDecorator.java:36 | Replays the decorator's calls on a new result, or reports its exception |
| Week01Grading.Grade | grading/week01/Week1AutoGrader.java:64-76 | Returns the chain's result, or the exception that left it |
| Week01Grading.ParseArguments | grading/week01/Week1AutoGrader.java:14-23 | The package is the first argument or the default package; the output folder is the second argument or null |
| Week01Grading.ExceptionTallyFails | grading/week01/Week1AutoGrader.java:155-165 | The exception result fails, with two failed tests that name the exception |
| Week01Grading.ExceptionResult | grading/week01/Week1AutoGrader.java:155-165 | Builds the exception result |
| Week01Grading.CreateFailFileForException | grading/week01/Week1AutoGrader.java:155-165 | Writes the exception's fail report when the folder can hold it, and fails otherwise |
| Week01Grading.ReportResult | grading/week01/Week1AutoGrader.java:36-42 | Writes the result file and returns the exit status the result gives; where writing throws, returns the handler's outcome |
| Week01Grading.GradeAndReport | grading/week01/Week1AutoGrader.java:31-56 | The try block and its handler, as the Finished function gives them |
| Week01Grading.RunAutoGrader | grading/week01/Week1AutoGrader.java:13-57 | main, as the AutoGraderRun function gives it |
| Week01Grading.ReportedOutcome | grading/week01/Week1AutoGrader.java:36-56 | Exit 0 exactly when the result passed and its file was written; if the folder can hold it, exactly one marker is left, the pass marker exactly on exit 0; otherwise none |
| Week01Grading.RaisedOutcome | grading/week01/Week1AutoGrader.java:44-56 | After an exception the exit status is 1, and the fail marker is written exactly when the folder can hold it |
| Week01Grading.FinishedOutcome | grading/week01/Week1AutoGrader.java:31-56 | Exit 0 exactly when the chain graded, the result passed and its file was written, with markers as above |
| Week01Grading.AutoGraderOutcome | grading/week01/Week1AutoGrader.java:13-57 | main exits 0 exactly when the full chain ran, passed and its file was written |
| Week01Report.FileName | grading/week01/ResultFileGenerator.java:26 | The pass marker exactly for a passed result |
| Week01Report.OutputDir | grading/week01/ResultFileGenerator.java:29-33 | A missing or blank argument means the working folder |
| Week01Report.Prefixed | grading/week01/ResultFileGenerator.java:96-97 | Each message with the bullet in front, in order |
| Week01Report.DigestShape | grading/week01/ResultFileGenerator.java:95-102 | The digest shows min(n, 5) failures in order, and counts the rest exactly when there are more than 5 |
| Week01Report.StepMeaning | grading/week01/ResultFileGenerator.java:169-196 | One failure adds exactly the suggestions that apply to it, in order |
| Week01Report.CollectedMeaning | grading/week01/ResultFileGenerator.java:169-196 | A suggestion is gathered exactly when some failure triggers it |
| Week01Report.ChosenMeaning | grading/week01/ResultFileGenerator.java:164-205 | Each keyword suggestion is made exactly when some lower-cased failure matches; the defaults exactly when none matches |
| Week01Report.Consider | grading/week01/ResultFileGenerator.java:172-195 | Appends the suggestion's line exactly when it applies |
| Week01Report.ConsiderFailure | grading/week01/ResultFileGenerator.java:172-195 | The lines after the eight keyword tests on one failure are those of the suggestions gathered so far plus the ones it triggers |
| Week01Report.InterfaceAdvice | grading/week01/ResultFileGenerator.java:172-174 | The interface suggestion fires exactly when the message mentions "interface" |
| Week01Report.ReportOpening | grading/week01/ResultFileGenerator.java:74-104 | The status line tells pass from fail, and a failed report opens with the digest of its failures |
| Week01Report.ReportListsAll | grading/week01/ResultFileGenerator.java:106-132 | Every success, every failure and every log line appears in the report |
| Week01Report.ReportClosing | grading/week01/ResultFileGenerator.java:134-154 | A failed report carries its suggestions just before the learning resources; every report ends with the footer |
| Week01Report.ReportSuggests | grading/week01/ResultFileGenerator.java:135-140 | In a failed report every suggestion made appears as its line |
| Week01Report.WriteResultMarkers | grading/week01/ResultFileGenerator.java:25-63 | Afterwards exactly the chosen marker is in the folder (none when it cannot be written); it holds the report; no other path changes |
| Week01Report.AppendBullets | grading/week01/ResultFileGenerator.java:110-121 | Appends the bulleted messages |
| Week01Report.AppendDigest | grading/week01/ResultFileGenerator.java:95-102 | Appends the digest |
| Week01Report.GenerateImprovementSuggestions | grading/week01/ResultFileGenerator.java:164-205 | Returns the lines of the chosen suggestions |
| Week01Report.WriteHeader | grading/week01/ResultFileGenerator.java:74-81 | Appends the title, status and test lines |
| Week01Report.WriteSummary | grading/week01/ResultFileGenerator.java:84-104 | Appends the congratulations or the digest |
| Week01Report.WriteSection | grading/week01/ResultFileGenerator.java:107-124 | Appends a titled section only when it has messages |
| Week01Report.WriteLog | grading/week01/ResultFileGenerator.java:127-132 | Appends every detail line verbatim |
| Week01Report.WriteImprovements | grading/week01/ResultFileGenerator.java:135-140 | Appends the suggestions for a failed result only |
| Week01Report.GenerateFileContent | grading/week01/ResultFileGenerator.java:70-157 | Returns the report lines |
| Week01Report.GenerateResultFile | grading/week01/ResultFileGenerator.java:25-46 | Deletes both markers, then writes the chosen one when the folder can hold it, and fails otherwise |
| Week01Report.SummaryShape | grading/week01/ResultFileGenerator.java:219-228 | A failed summary names at most three failures and counts the rest exactly when there are more than three; a passed one names none |
| Week01Report.PrintSummaryHead | grading/week01/ResultFileGenerator.java:212-217 | Prints the banner, status and test lines |
| Week01Report.PrintKeyIssues | grading/week01/ResultFileGenerator.java:219-228 | Prints the key issues of a failed result only |
| Week01Report.PrintSummary | grading/week01/ResultFileGenerator.java:211-231 | Prints the summary lines |
| Week02Results.PassedCount | grading/week02/GradeResult.java:123-143 | The passed count is at most the number of tests |
| Week02Results.FreshNotPassed | grading/week02/GradeResult.java:19-25 | A new result is consistent, empty and not passed |
| Week02Results.RecordedKeepsConsistent | grading/week02/GradeResult.java:32-56 | Adding a test keeps the result consistent, counts it, counts it as passed exactly when it passed, and adds its points to the sums |
| Week02Results.UnscoredKeepsPoints | grading/week02/GradeResult.java:32-38 | A test without points leaves both point sums unchanged |
| Week02Results.PassedCountAll | grading/week02/GradeResult.java:90-92 | All tests passed exactly when the passed count equals the number of tests |
| Week02Results.IsPassedMeaning | grading/week02/GradeResult.java:90-92 | A consistent result is passed exactly when it holds at least one test and every test passed |
| Week02Results.GradeResult.constructor | grading/week02/GradeResult.java:19-25 | A new result is in the fresh state |
| Week02Results.GradeResult.AddTest | grading/week02/GradeResult.java:32-38 | The new state adds an unscored test |
| Week02Results.GradeResult.AddScoredTest | grading/week02/GradeResult.java:47-56 | The new state adds a scored test |
| Week02Results.GradeResult.AddDetail | grading/week02/GradeResult.java:62-64 | The new state adds the detail as given |
| Week02Decorator.GradePassesThrough | grading/week02/GraderDecorator.java:15-20 | A stack of base decorators returns exactly the result of the innermost grader, and fails exactly when a link is null |
| Week02Decorator.NullAccepted | grading/week02/GraderDecorator.java:11-13 | A decorator around null can be built and named; only grading fails |
| Week02Decorator.MergedContents | grading/week02/GraderDecorator.java:31-43 | The new details followed by the previous ones; the tests are unchanged, or gain one failed "Previous grading step failed" test when the previous result did not pass |
| Week02Decorator.MergedPasses | grading/week02/GraderDecorator.java:31-43 | The merge keeps a consistent result consistent, and passes exactly when both inputs pass |
| Week02Decorator.MergeResults | grading/week02/GraderDecorator.java:31-43 | Changes the new result in place to the merged state and returns it |
| GradeAllStudents.DirectFilesCountTwice | grade_all_students.py:31-32 | The count is twice the Java files directly in the folder plus those deeper down |
| GradeAllStudents.CheckedVerdict | grade_all_students.py:10-52 | Without a problem folder, unknown with no files counted; otherwise pass exactly when at least five files are counted |
| GradeAllStudents.ThreeDirectFilesPass | grade_all_students.py:31-42 | Three Java files directly in the problem folder already pass |
| GradeAllStudents.CheckedMarkers | grade_all_students.py:35-50 | A marker is written only when both folders exist; it is the pass marker exactly on a pass; nothing else changes |
| GradeAllStudents.CheckStudentCode | grade_all_students.py:10-52 | Returns the check's record and writes its marker |
| GradeAllStudents.CountsAddUp | grade_all_students.py:78-85 | Every record is counted exactly once in the summary |
| GradeAllStudents.GradeAll | grade_all_students.py:54-92 | Given the entries of the students folder in sorted order, None without a students folder; otherwise the records of every directory in that order, and the files after the checks |
| GradeAllStudents.EachDirectoryOnce | grade_all_students.py:64-65 | With the sorted listing, every student directory is checked, each exactly once, in increasing order of names |
| GradeAllStudents.CheckedIgnoresMarkers | grade_all_students.py:10-52 | A check reads nothing a check writes |
| GradeAllStudents.CheckedWritesMarkers | grade_all_students.py:35-50 | A check writes markers only |
| GradeAllStudents.CheckAllRecords | grade_all_students.py:64-74 | Every directory in the listing is checked, in order, each as if alone; only markers are written |
| FileSystem.MadeDirsMeaning | bootstrap/generate_process_list.py:61 | mkdir fails exactly when a folder on the way exists as a file; otherwise each is a directory afterwards, existing entries are kept and nothing else is created |
| FileSystem.Fs.MakeDirs | bootstrap/generate_process_list.py:61 | Reports success as MadeDirs does and takes its files |
| FileSystem.Fs.DeleteIfExists | grading/week01/grade.py:33-36 | The path is gone; nothing else changes |
| FileSystem.Fs.Touch | grading/driver_template.py:52-56 | An existing file keeps its contents and gets a new time; a missing one is created empty |
| Roster.DictRow | generate_process_list.py:28 | The row has exactly the header's columns |
| Roster.RowsUnder | generate_process_list.py:28 | No more rows than records |
| Roster.FormatFailsAlike | generate_process_list.py:82-84 | Whether the template formats depends on the template alone |
| Roster.FormatBraceFree | generate_process_list.py:146-148 | A template without braces formats to itself |
| Roster.FormatSubstitutes | generate_process_list.py:146-148 | The placeholder is replaced by the value and the text around it is kept |
| ProcessList.FilteredKeeps | generate_process_list.py:28-47 | When the roster reads, the students are exactly the rows with both fields and a confirmed GitHub id, stripped, in order |
| ProcessList.FilteredFails | generate_process_list.py:50-55 | Reading fails exactly when some row is malformed |
| ProcessList.ReadRows | generate_process_list.py:28-49 | The loop gives the filtered roster |
| ProcessList.FilteredStaysFailed | generate_process_list.py:50-55 | Once a prefix fails, the whole roster fails |
| ProcessList.UrlsEntries | generate_process_list.py:62-86 | On success one entry per student, in order, with the id kept and the template filled in |
| ProcessList.UrlsFailure | generate_process_list.py:82-84 | For a non-empty roster, the URLs fail exactly when the template fails for the first student |
| ProcessList.GenerateRepositoryUrls | generate_process_list.py:62-86 | The loop gives the URL list or its error |
| ProcessList.CsvRows | generate_process_list.py:101-105 | The header, then an id-and-URL row per entry |
| ProcessList.WriteProcessList | generate_process_list.py:88-112 | Succeeds exactly when the file can be created, and then writes the table |
| ProcessList.Generate | generate_process_list.py:114-174 | main, as the Run function gives it |
| ProcessList.ListingTable | generate_process_list.py:101-105 | The written table lists the students |
| ProcessList.PublishedOutcome | generate_process_list.py:156-166 | After reading, only the output is written, on status 0, and it lists the students |
| ProcessList.RunOutcome | generate_process_list.py:114-174 | The status is 0 or 1; a template without the placeholder gives 1 with no write; a write happens only on 0, only to the output, and lists the confirmed students in roster order |
| BootstrapProcessList.GatheredFields | bootstrap/generate_process_list.py:36-45 | No more students than rows; every student has a non-empty id and GitHub id |
| BootstrapProcessList.GatheredOrigin | bootstrap/generate_process_list.py:36-51 | Every student comes from a kept row before the first row that raises |
| BootstrapProcessList.GatheredStops | bootstrap/generate_process_list.py:50-51 | Rows after one that raises are never read |
| BootstrapProcessList.ReadRows | bootstrap/generate_process_list.py:36-51 | The loop gives the gathered students |
| BootstrapProcessList.WrittenOutcome | bootstrap/generate_process_list.py:63-81 | Either every student is listed, or the template fails for all, and then the file holds only the header |
| BootstrapProcessList.WrittenStaysFailed | bootstrap/generate_process_list.py:69-81 | Once a prefix fails, the file does not change |
| BootstrapProcessList.GenerateProcessList | bootstrap/generate_process_list.py:57-81 | Makes the folder, opens the file and writes rows up to the first failure, as the Generated function gives it |
| BootstrapProcessList.GenerateFromRoster | bootstrap/generate_process_list.py:84-129 | main, as the Run function gives it |
| BootstrapProcessList.RunOutcome | bootstrap/generate_process_list.py:84-129 | Exit 0 exactly when a student was read, the folders were made, the output opened and the template formats; then the output lists the students; if the output opened and the status is 1, it holds only the header |

## Left out

- Console output and logging: every `print`, `logger` call and `System.out`
  line is left out, except the lines of `printSummary`, which are returned as
  a value.
- Configuration loading (`load_config`, YAML) and signal handlers: the
  scheduler's constructor takes the configured values as parameters.
- Concurrency (asyncio tasks, semaphores, `gather`, thread executors): the
  tasks of a cycle are taken to run one after another in some order. Each
  pull's outcome and writes, each task that raises, and each grading
  command's outcome and writes are inputs.
- Subprocesses: every `git`, `javac`, `java`, `g++` and `python` invocation
  is an abstract outcome plus the files it writes.
  - The literal `*.java` and `*.cpp` arguments that grade.py and the C++
    template pass without a shell are therefore not captured.
  - A `git pull` can only change files inside the working copy it runs in.
- Clocks: `time.time()` and `LocalDateTime.now()` are parameters or the
  file system's clock.
  - The report's "Generated:" and "Score:" lines are left out, as is
    `printSummary`'s score line, because they need floating point and the
    date.
  - The week-2 start and end times are left out.
- Floating point: `getScore` and `cycle_duration` are left out, and durations
  are whole numbers.
- Java `int` overflow of the test counters and point sums is not modelled;
  the counters are unbounded.
- The week-1 pattern graders (factory, singleton, integration) inspect the
  student's classes by reflection. Each is modelled only by the calls it
  makes on its result, or by the exception it throws.
  - The week-2 command, observer and integration graders are left out the
    same way.
  - Java interfaces and abstract classes become datatypes.
- `BasicGrader`'s catch block is left out: nothing in its try block can throw.
- `Week1AutoGrader.printUsage`, `performSteppedGrading` and the other
  `GraderBuilder` factories are left out; `main` never calls them.
- The text of an IOException's message is not modelled; only the fact that
  writing failed is.
- The week-2 `ResultFileGenerator` is left out: it is not one of the modelled
  classes.
- Week02Results.PassedCount: the contract gives only the bound; what the
  count means is stated by `IsPassedMeaning` and `PassedCountAll`.
- `str.format` is modelled for `{git_id}`, `{{` and `}}`. Every other
  field, including format specs and conversions on `git_id`, is treated as
  an error.
- CSV parsing is reduced to records of fields: quoting, encodings and
  decoding errors part-way through the file are left out.
  - The bootstrap generator treats an unreadable roster as no students;
    students read before a decoding error are not kept.
- Argument parsing errors that make `argparse` exit with status 2 are left
  out; the arguments are given as values.
- The bootstrap defaults are given as constants. The model proves no
  property of the literal default template.
- grade_all_students.py:
  - `grading/week01` must be a directory; the case where it is a file is
    not modelled;
  - the students path is taken to be a directory when it exists;
  - the listing is an input; `SortedListing` requires it to hold every entry
    of the students folder once, in increasing order by code points.
- `cleanup_old_results`: a directory whose name matches is left alone. The
  source's `unlink` would raise on it and the handler would end the cleanup.
- Grader.GradeStudent: writing or deleting a report is taken to succeed.
  In the source, `_create_pass_result` inside `_execute_grading` raising
  reaches the handler at backend/grader.py:193-195, whose own write can raise
  again and leave `grade_student`; a failing `unlink` in
  `_cleanup_result_files` reaches the handler at lines 157-161. Only an
  exception from the cleanup or from language detection is modelled
  (`cleanupError`, `detectionError`).
- Scheduler.GradingScheduler.GradeStudentAsync: an exception escaping
  `grade_student` is not modelled, so the case where `_grade_student_async`
  logs it and keeps the student's old record (backend/scheduler.py:217-218)
  is not captured.
- Scheduler.GradingScheduler.RunCycle: a cycle raises either before the pulls
  or in the broadcast's send loop. An exception part-way through the pulls
  or the record updates, or after some failed connections were dropped, is
  not modelled.
- Strings.IsPySpace: only the whitespace characters below U+0100 that
  Python's `str.strip` removes are recognised; the other Unicode spaces
  (such as U+2003 or U+3000) are not.
- Strings.Lower: only ASCII letters are lower-cased, where Java's
  `toLowerCase` also folds other letters. The modelled keywords are all
  ASCII, but a failure message with, say, a capital `É` keeps it where Java
  would lower-case it.
- Paths are sequences of names. An output path that is empty, absolute or
  contains `..` is not distinguished from an ordinary one.
- The file map is not required to hold the parent folder of every entry.
  States in which a file sits in a missing folder are not ruled out.
- The frontend (`frontend/main.py`) and `bootstrap.py` are not part of this
  model.
