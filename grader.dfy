/** backend/grader.py: grades one student's week by compiling and running
    the code under students/<id>/repo/<problem>/<week>, writes a pass or fail
    report into students/<id>/<grading>/<week>, and reads those reports back
    as a verdict. */
module Grader {
  import opened Wrappers
  import opened Strings
  import opened FileSystem
  import opened Commands

  /** `GradeResult`: 'pass', 'fail' or 'unknown'. */
  datatype Verdict = Pass | Fail | Unknown

  /** A week folder pattern: literal text and `{week}` / `{week:0<w>d}` fields
      (width 0 is the plain `{week}`). */
  datatype Segment = Lit(text: string) | WeekField(width: nat)

  type WeekPattern = seq<Segment>

  /** `week_pattern.format(week=week)`. */
  function FormatWeek(p: WeekPattern, week: int): string
    decreases |p|
  {
    if p == [] then ""
    else (match p[0] case Lit(t) => t case WeekField(w) => ZeroPadded(week, w)) + FormatWeek(p[1..], week)
  }

  datatype Language = Language(name: string, extensions: seq<string>, compile: Option<string>, run: Option<string>)

  /** The loaded configuration.  A missing `week_pattern` key is None, because
      the two call sites fall back to different patterns; the other keys are
      given with the defaults already filled in. */
  datatype Config = Config(problemFolder: string, gradingFolder: string, weekPattern: Option<WeekPattern>,
                           passFile: string, failFile: string, languages: seq<Language>)

  /** `_get_default_config`, used when the configuration file cannot be loaded. */
  const DefaultConfig: Config :=
    Config("problem", "grading", Some([Lit("week"), WeekField(0)]), "results.pass", "results.fail",
           [Language("java", [".java"], Some("javac *.java"), Some("java Main")),
            Language("python", [".py"], None, Some("python3 main.py"))])

  /** The fallback pattern of `grade_student` is 'week{week}' ... */
  const GradePatternDefault: WeekPattern := [Lit("week"), WeekField(0)]
  /** ... and that of `get_student_status` is 'week{week:02d}'. */
  const StatusPatternDefault: WeekPattern := [Lit("week"), WeekField(2)]

  function GradeWeekFolder(cfg: Config, week: int): string {
    FormatWeek(if cfg.weekPattern.Some? then cfg.weekPattern.value else GradePatternDefault, week)
  }

  function StatusWeekFolder(cfg: Config, week: int): string {
    FormatWeek(if cfg.weekPattern.Some? then cfg.weekPattern.value else StatusPatternDefault, week)
  }

  /** Without a configured pattern, grading and status lookup name the same week
      folder exactly when the week is not a single digit: week 3 is graded in
      week3 and looked up in week03. */
  lemma DefaultWeekFoldersAgree(cfg: Config, week: int)
    requires cfg.weekPattern.None?
    ensures GradeWeekFolder(cfg, week) == StatusWeekFolder(cfg, week) <==> !(0 <= week < 10)
  {
    var g, s := GradePatternDefault, StatusPatternDefault;
    assert FormatWeek(g, week) == "week" + ZeroPadded(week, 0) by {
      assert g[1..][1..] == [];
    }
    assert FormatWeek(s, week) == "week" + ZeroPadded(week, 2) by {
      assert s[1..][1..] == [];
    }
    assert ZeroPadded(week, 0) == IntToString(week);
    ZeroPaddedTwo(week);
    if ZeroPadded(week, 0) != ZeroPadded(week, 2) {
      assert ("week" + ZeroPadded(week, 0))[4..] == ZeroPadded(week, 0);
      assert ("week" + ZeroPadded(week, 2))[4..] == ZeroPadded(week, 2);
    }
  }

  /** A configured value counts only when it is present and non-empty. */
  predicate Truthy(o: Option<string>) {
    o.Some? && o.value != ""
  }

  // ---------------------------------------------------------------- languages

  predicate HasSource(files: Files, dir: Path, ext: string) {
    Glob(files, dir, ext) != {} || GlobRecursive(files, dir, ext) != {}
  }

  /** Some source file of the language lies in dir or below it. */
  predicate Detects(files: Files, dir: Path, lang: Language) {
    exists k :: 0 <= k < |lang.extensions| && HasSource(files, dir, lang.extensions[k])
  }

  /** The first language, in configuration order, that has a source file. */
  function Detected(files: Files, dir: Path, langs: seq<Language>): (r: Option<nat>)
    ensures r.None? <==> forall j :: 0 <= j < |langs| ==> !Detects(files, dir, langs[j])
    ensures r.Some? ==> r.value < |langs| && Detects(files, dir, langs[r.value])
                        && forall j :: 0 <= j < r.value ==> !Detects(files, dir, langs[j])
    decreases |langs|
  {
    if langs == [] then None
    else if Detects(files, dir, langs[0]) then Some(0)
    else match Detected(files, dir, langs[1..])
      case None => None
      case Some(i) => Some(i + 1)
  }

  /** The direct search of `_detect_language` adds nothing to the recursive one. */
  lemma DetectionIsRecursive(files: Files, dir: Path, ext: string)
    ensures HasSource(files, dir, ext) <==> GlobRecursive(files, dir, ext) != {}
  {
    GlobWithinRecursive(files, dir, ext);
  }

  /** `_detect_language`: the index of the detected language, if any. */
  method DetectLanguage(files: Files, dir: Path, langs: seq<Language>) returns (r: Option<nat>)
    ensures r == Detected(files, dir, langs)
  {
    var i := 0;
    while i < |langs|
      invariant 0 <= i <= |langs|
      invariant forall j :: 0 <= j < i ==> !Detects(files, dir, langs[j])
    {
      var exts := langs[i].extensions;
      var k := 0;
      while k < |exts|
        invariant 0 <= k <= |exts|
        invariant forall m :: 0 <= m < k ==> !HasSource(files, dir, exts[m])
      {
        var direct := Glob(files, dir, exts[k]);
        var recursive := GlobRecursive(files, dir, exts[k]);
        if direct != {} || recursive != {} {
          return Some(i);
        }
        k := k + 1;
      }
      i := i + 1;
    }
    return None;
  }

  // ---------------------------------------------------------------- reports

  /** `result.stdout[:200]`. */
  function Take(s: string, n: nat): (r: string)
    ensures |r| == if |s| < n then |s| else n
    ensures r == s[..|r|]
  {
    if |s| <= n then s else s[..n]
  }

  /** The message `_run_tests` returns for a finished, timed-out or failed run. */
  function TestMessage(status: Status, timeout: int): string {
    match status
    case Exited(code, out, err) =>
      if code == 0 then "Tests passed. Output: " + Take(out, 200) + "..."
      else "Tests failed. Error: " + Take(err, 200) + "..."
    case TimedOut => "Test execution timeout (" + IntToString(timeout) + "s)"
    case Raised(e) => "Test execution error: " + e
  }

  /** Which of the four report texts `_create_fail_result` picks, by the first
      phrase the message contains. */
  function FailBucket(message: string): FailureCategory {
    if Contains(message, "No supported language detected") then NoLanguage
    else if Contains(message, "Compilation failed") then CompilationFailure
    else if Contains(message, "Execution error") || Contains(message, "Runtime error") then RuntimeFailure
    else OtherFailure
  }

  /** The fail report; only the generic report quotes the message itself. */
  function FailBody(message: string): Body {
    var c := FailBucket(message);
    FailReport(c, if c == OtherFailure then message else "")
  }

  /** The failure messages `_execute_grading` writes itself land in the report meant for them ... */
  lemma NoLanguageBucket()
    ensures FailBucket("No supported language detected") == NoLanguage
  {
    assert StartsWith("No supported language detected", "No supported language detected");
  }

  /** A message that starts with "Compilation failed" and is shorter than the
      no-language phrase, such as `_execute_grading`'s own, gets the compilation report. */
  lemma CompilationBucket(m: string)
    requires StartsWith(m, "Compilation failed") && |m| < |"No supported language detected"|
    ensures FailBucket(m) == CompilationFailure
  {
    if Contains(m, "No supported language detected") {
      ContainsNotLonger(m, "No supported language detected");
    }
  }

  /** ... and an exception raised while executing never lands in the generic report. */
  lemma ExecutionErrorBucket(e: string)
    ensures FailBucket("Execution error: " + e) != OtherFailure
  {
    ContainsInfix("", "Execution error", ": " + e);
    assert "" + "Execution error" + (": " + e) == "Execution error: " + e;
  }

  // ---------------------------------------------------------------- grading as a specification

  /** What the environment of one grading run does: exceptions raised while
      deleting the old reports or while detecting the language, and the
      outcomes of the compile command, of `python3 grade.py <problem folder>`
      run in the grading folder, and of the language's run command run in the
      problem folder. */
  datatype GradingEnv = GradingEnv(cleanupError: Option<string>, detectionError: Option<string>,
                                   compileRun: Run, scriptRun: Run, commandRun: Run, timeout: int)

  function WritePass(files: Files, cfg: Config, gradingDir: Path, message: string, stamp: int): Files {
    files[gradingDir + [cfg.passFile] := File(PassReport(message), stamp)]
  }

  function WriteFail(files: Files, cfg: Config, gradingDir: Path, message: string, stamp: int): Files {
    files[gradingDir + [cfg.failFile] := File(FailBody(message), stamp)]
  }

  /** A grade.py in the grading folder is run in preference to the run command. */
  predicate TestsRunnable(files: Files, gradingDir: Path, run: Option<string>) {
    gradingDir + ["grade.py"] in files || Truthy(run)
  }

  /** The command `_run_tests` runs: grade.py when the grading folder has one,
      otherwise the run command. */
  function ChosenTestRun(files: Files, gradingDir: Path, scriptRun: Run, commandRun: Run): Run {
    if gradingDir + ["grade.py"] in files then scriptRun else commandRun
  }

  /** `_run_tests`: the files afterwards, success, and the message. */
  function TestsSpec(files: Files, gradingDir: Path, run: Option<string>, scriptRun: Run, commandRun: Run,
                     timeout: int): (Files, bool, string) {
    if TestsRunnable(files, gradingDir, run) then
      var testRun := ChosenTestRun(files, gradingDir, scriptRun, commandRun);
      (files + testRun.writes, Succeeded(testRun), TestMessage(testRun.status, timeout))
    else (files, false, "No grading script or run command found")
  }

  /** With a grade.py in the grading folder the run command is never used:
      neither the language's run command nor what it would do matters. */
  lemma ScriptPreferred(files: Files, gradingDir: Path, run: Option<string>, run': Option<string>,
                        scriptRun: Run, commandRun: Run, commandRun': Run, timeout: int)
    requires gradingDir + ["grade.py"] in files
    ensures TestsSpec(files, gradingDir, run, scriptRun, commandRun, timeout)
            == TestsSpec(files, gradingDir, run', scriptRun, commandRun', timeout)
            == (files + scriptRun.writes, Succeeded(scriptRun), TestMessage(scriptRun.status, timeout))
  {
  }

  /** Without a grade.py, a non-empty run command is what decides, and the
      grade.py outcome never matters. */
  lemma CommandWithoutScript(files: Files, gradingDir: Path, run: Option<string>,
                             scriptRun: Run, scriptRun': Run, commandRun: Run, timeout: int)
    requires gradingDir + ["grade.py"] !in files
    ensures TestsSpec(files, gradingDir, run, scriptRun, commandRun, timeout)
            == TestsSpec(files, gradingDir, run, scriptRun', commandRun, timeout)
    ensures Truthy(run) ==>
              TestsSpec(files, gradingDir, run, scriptRun, commandRun, timeout)
              == (files + commandRun.writes, Succeeded(commandRun), TestMessage(commandRun.status, timeout))
  {
  }

  /** The files once the selected language's compile command, if any, has run. */
  function Compiled(files: Files, lang: Language, compileRun: Run): Files {
    if Truthy(lang.compile) then files + compileRun.writes else files
  }

  /** `_execute_grading`: the files afterwards and the verdict. */
  function ExecuteSpec(files: Files, cfg: Config, env: GradingEnv, problemDir: Path, gradingDir: Path, stamp: int): (Files, Verdict) {
    if env.detectionError.Some? then
      (WriteFail(files, cfg, gradingDir, "Execution error: " + env.detectionError.value, stamp), Fail)
    else match Detected(files, problemDir, cfg.languages)
      case None => (WriteFail(files, cfg, gradingDir, "No supported language detected", stamp), Fail)
      case Some(i) =>
        var lang := cfg.languages[i];
        var f1 := Compiled(files, lang, env.compileRun);
        if Truthy(lang.compile) && !Succeeded(env.compileRun) then
          (WriteFail(f1, cfg, gradingDir, "Compilation failed", stamp), Fail)
        else
          var (f2, ok, message) := TestsSpec(f1, gradingDir, lang.run, env.scriptRun, env.commandRun, env.timeout);
          if ok then (WritePass(f2, cfg, gradingDir, message, stamp), Pass)
          else (WriteFail(f2, cfg, gradingDir, message, stamp), Fail)
  }

  function RepoDir(id: string): Path { ["students", id, "repo"] }

  function ProblemDir(cfg: Config, id: string, week: int): Path {
    RepoDir(id) + [cfg.problemFolder, GradeWeekFolder(cfg, week)]
  }

  function GradingDir(cfg: Config, id: string, week: int): Path {
    ["students", id, cfg.gradingFolder, GradeWeekFolder(cfg, week)]
  }

  /** The three folders grading needs. */
  predicate Gradable(files: Files, cfg: Config, id: string, week: int) {
    RepoDir(id) in files && ProblemDir(cfg, id, week) in files && GradingDir(cfg, id, week) in files
  }

  /** `grade_student`: the files afterwards and the verdict. */
  function GradeSpec(files: Files, cfg: Config, env: GradingEnv, id: string, week: int, stamp: int): (Files, Verdict) {
    var gd := GradingDir(cfg, id, week);
    if !Gradable(files, cfg, id, week) then (files, Unknown)
    else if env.cleanupError.Some? then
      (WriteFail(files, cfg, gd, "Grading error: " + env.cleanupError.value, stamp), Fail)
    else ExecuteSpec(files - {gd + [cfg.passFile], gd + [cfg.failFile]}, cfg, env, ProblemDir(cfg, id, week), gd, stamp)
  }

  // ---------------------------------------------------------------- grading, step by step

  /** `_cleanup_result_files`. */
  method CleanupResultFiles(fs: Fs, cfg: Config, gradingDir: Path)
    modifies fs
    ensures fs.files == old(fs.files) - {gradingDir + [cfg.passFile], gradingDir + [cfg.failFile]}
    ensures fs.clock == old(fs.clock)
  {
    fs.DeleteIfExists(gradingDir + [cfg.passFile]);
    fs.DeleteIfExists(gradingDir + [cfg.failFile]);
  }

  /** `_compile_code`: the command runs in the problem folder. */
  method CompileCode(fs: Fs, compileRun: Run) returns (ok: bool)
    modifies fs
    ensures ok == Succeeded(compileRun)
    ensures fs.files == old(fs.files) + compileRun.writes && fs.clock == old(fs.clock)
  {
    fs.Apply(compileRun.writes);
    ok := compileRun.status.Exited? && compileRun.status.code == 0;
  }

  /** `_run_tests`. */
  method RunTests(fs: Fs, gradingDir: Path, run: Option<string>, scriptRun: Run, commandRun: Run, timeout: int)
    returns (success: bool, message: string)
    modifies fs
    ensures (fs.files, success, message) == TestsSpec(old(fs.files), gradingDir, run, scriptRun, commandRun, timeout)
    ensures fs.clock == old(fs.clock)
  {
    var gradingScript := gradingDir + ["grade.py"];
    var testRun;
    if gradingScript in fs.files {
      testRun := scriptRun;        // python3 grade.py <problem folder>, in the grading folder
    } else if run.Some? && run.value != "" {
      testRun := commandRun;       // the run command through the shell, in the problem folder
    } else {
      return false, "No grading script or run command found";
    }
    fs.Apply(testRun.writes);
    match testRun.status {
      case Exited(code, out, err) =>
        if code == 0 {
          success, message := true, "Tests passed. Output: " + Take(out, 200) + "...";
        } else {
          success, message := false, "Tests failed. Error: " + Take(err, 200) + "...";
        }
      case TimedOut =>
        success, message := false, "Test execution timeout (" + IntToString(timeout) + "s)";
      case Raised(e) =>
        success, message := false, "Test execution error: " + e;
    }
  }

  /** `_create_pass_result`; the timestamp in the text is the file's stamp. */
  method CreatePassResult(fs: Fs, cfg: Config, gradingDir: Path, message: string)
    modifies fs
    ensures fs.files == WritePass(old(fs.files), cfg, gradingDir, message, old(fs.clock)) && fs.clock == old(fs.clock)
  {
    fs.Write(gradingDir + [cfg.passFile], PassReport(message));
  }

  /** `_create_fail_result`. */
  method CreateFailResult(fs: Fs, cfg: Config, gradingDir: Path, message: string)
    modifies fs
    ensures fs.files == WriteFail(old(fs.files), cfg, gradingDir, message, old(fs.clock)) && fs.clock == old(fs.clock)
  {
    var category := FailBucket(message);
    fs.Write(gradingDir + [cfg.failFile], FailReport(category, if category == OtherFailure then message else ""));
  }

  /** `_execute_grading`. */
  method ExecuteGrading(fs: Fs, cfg: Config, env: GradingEnv, problemDir: Path, gradingDir: Path) returns (r: Verdict)
    modifies fs
    ensures (fs.files, r) == ExecuteSpec(old(fs.files), cfg, env, problemDir, gradingDir, old(fs.clock))
    ensures fs.clock == old(fs.clock)
  {
    if env.detectionError.Some? {
      CreateFailResult(fs, cfg, gradingDir, "Execution error: " + env.detectionError.value);
      return Fail;
    }
    var language := DetectLanguage(fs.files, problemDir, cfg.languages);
    if language.None? {
      CreateFailResult(fs, cfg, gradingDir, "No supported language detected");
      return Fail;
    }
    var lang := cfg.languages[language.value];
    if lang.compile.Some? && lang.compile.value != "" {
      var compiled := CompileCode(fs, env.compileRun);
      if !compiled {
        CreateFailResult(fs, cfg, gradingDir, "Compilation failed");
        return Fail;
      }
    }
    var success, message := RunTests(fs, gradingDir, lang.run, env.scriptRun, env.commandRun, env.timeout);
    if success {
      CreatePassResult(fs, cfg, gradingDir, message);
      r := Pass;
    } else {
      CreateFailResult(fs, cfg, gradingDir, message);
      r := Fail;
    }
  }

  /** `grade_student`. */
  method GradeStudent(fs: Fs, cfg: Config, env: GradingEnv, id: string, week: int) returns (r: Verdict)
    modifies fs
    ensures (fs.files, r) == GradeSpec(old(fs.files), cfg, env, id, week, old(fs.clock))
    ensures fs.clock == old(fs.clock)
  {
    var weekFolder := GradeWeekFolder(cfg, week);
    var repoDir := ["students", id, "repo"];
    var problemDir := repoDir + [cfg.problemFolder, weekFolder];
    var gradingDir := ["students", id, cfg.gradingFolder, weekFolder];
    if repoDir !in fs.files {
      return Unknown;
    }
    if problemDir !in fs.files {
      return Unknown;
    }
    if gradingDir !in fs.files {
      return Unknown;
    }
    if env.cleanupError.Some? {
      CreateFailResult(fs, cfg, gradingDir, "Grading error: " + env.cleanupError.value);
      return Fail;
    }
    CleanupResultFiles(fs, cfg, gradingDir);
    r := ExecuteGrading(fs, cfg, env, problemDir, gradingDir);
  }

  // ---------------------------------------------------------------- properties of grading

  /** The verdict is unknown exactly when a folder is missing, and then nothing is written. */
  lemma GradeUnknownIff(files: Files, cfg: Config, env: GradingEnv, id: string, week: int, stamp: int)
    ensures var (after, v) := GradeSpec(files, cfg, env, id, week, stamp);
            (v == Unknown <==> !Gradable(files, cfg, id, week)) && (v == Unknown ==> after == files)
  {
  }

  /** A student passes exactly when every stage succeeds: the folders exist,
      nothing raises, a language is detected, its compile command (if any)
      succeeds, and a grade.py or run command exists and exits with 0. */
  lemma GradePassIff(files: Files, cfg: Config, env: GradingEnv, id: string, week: int, stamp: int)
    ensures var gd := GradingDir(cfg, id, week);
            var cleaned := files - {gd + [cfg.passFile], gd + [cfg.failFile]};
            var lang := Detected(cleaned, ProblemDir(cfg, id, week), cfg.languages);
            GradeSpec(files, cfg, env, id, week, stamp).1 == Pass <==>
              Gradable(files, cfg, id, week) && env.cleanupError.None? && env.detectionError.None?
              && lang.Some?
              && (Truthy(cfg.languages[lang.value].compile) ==> Succeeded(env.compileRun))
              && TestsRunnable(Compiled(cleaned, cfg.languages[lang.value], env.compileRun), gd, cfg.languages[lang.value].run)
              && Succeeded(ChosenTestRun(Compiled(cleaned, cfg.languages[lang.value], env.compileRun), gd,
                                         env.scriptRun, env.commandRun))
  {
  }

  /** A test command that fails leaves the pass report alone; one that succeeds
      may write it (grade.py does), since grading then writes it again. */
  predicate WritesOnlyItsMarker(run: Run, passFile: Path) {
    !Succeeded(run) ==> LeavesAlone(run, {passFile})
  }

  /** Reading the reports back gives the verdict grading returned, provided the
      compile command never writes the pass report, a failing test command does
      not either, and the two names differ. */
  lemma GradeReadBack(files: Files, cfg: Config, env: GradingEnv, id: string, week: int, stamp: int)
    requires cfg.passFile != cfg.failFile
    requires env.cleanupError.None?
    requires var gd := GradingDir(cfg, id, week);
             LeavesAlone(env.compileRun, {gd + [cfg.passFile]})
             && WritesOnlyItsMarker(env.scriptRun, gd + [cfg.passFile])
             && WritesOnlyItsMarker(env.commandRun, gd + [cfg.passFile])
    ensures var (after, v) := GradeSpec(files, cfg, env, id, week, stamp);
            v != Unknown ==> FirstMatch(after, ResultRules(GradingDir(cfg, id, week), cfg, week)) == v
  {
    var gd := GradingDir(cfg, id, week);
    var rules := ResultRules(gd, cfg, week);
    var (after, v) := GradeSpec(files, cfg, env, id, week, stamp);
    if v != Unknown {
      GradeMarkers(files, cfg, env, id, week, stamp);
      FirstMatchCons(after, rules);
      FirstMatchCons(after, rules[1..]);
    }
  }

  /** A graded run leaves the marker of its verdict, and a failed one no pass marker. */
  lemma GradeMarkers(files: Files, cfg: Config, env: GradingEnv, id: string, week: int, stamp: int)
    requires cfg.passFile != cfg.failFile
    requires env.cleanupError.None?
    requires var gd := GradingDir(cfg, id, week);
             LeavesAlone(env.compileRun, {gd + [cfg.passFile]})
             && WritesOnlyItsMarker(env.scriptRun, gd + [cfg.passFile])
             && WritesOnlyItsMarker(env.commandRun, gd + [cfg.passFile])
    ensures var gd := GradingDir(cfg, id, week);
            var (after, v) := GradeSpec(files, cfg, env, id, week, stamp);
            (v == Pass ==> gd + [cfg.passFile] in after)
            && (v == Fail ==> gd + [cfg.failFile] in after && gd + [cfg.passFile] !in after)
  {
    var gd := GradingDir(cfg, id, week);
    var passFile, failFile := gd + [cfg.passFile], gd + [cfg.failFile];
    assert passFile[|gd|] != failFile[|gd|];
  }

  // ---------------------------------------------------------------- reading the verdict back

  /** The files `_determine_result` looks for, in order, with what each one means. */
  function ResultRules(gradingDir: Path, cfg: Config, week: int): seq<(Path, Verdict)> {
    var parent := Parent(gradingDir);
    [(gradingDir + [cfg.passFile], Pass), (gradingDir + [cfg.failFile], Fail),
     (parent + ["week" + IntToString(week) + "_pass"], Pass), (parent + ["week" + IntToString(week) + "_fail"], Fail),
     (parent + ["pass"], Pass), (parent + ["fail"], Fail)]
  }

  /** The meaning of the first rule whose file exists. */
  function FirstMatch(files: Files, rules: seq<(Path, Verdict)>): Verdict
    decreases |rules|
  {
    if rules == [] then Unknown
    else if rules[0].0 in files then rules[0].1
    else FirstMatch(files, rules[1..])
  }

  lemma FirstMatchCons(files: Files, rules: seq<(Path, Verdict)>)
    requires rules != []
    ensures FirstMatch(files, rules) == if rules[0].0 in files then rules[0].1 else FirstMatch(files, rules[1..])
  {
  }

  predicate NoUnknownRule(rules: seq<(Path, Verdict)>) {
    forall i :: 0 <= i < |rules| ==> rules[i].1 != Unknown
  }

  /** FirstMatch is unknown exactly when no file of the rules exists, and
      otherwise it is the meaning of the earliest existing one. */
  lemma {:induction false} FirstMatchMeaning(files: Files, rules: seq<(Path, Verdict)>)
    requires NoUnknownRule(rules)
    ensures FirstMatch(files, rules) == Unknown <==> forall i :: 0 <= i < |rules| ==> rules[i].0 !in files
    ensures FirstMatch(files, rules) != Unknown ==>
              exists i :: 0 <= i < |rules| && rules[i].0 in files && rules[i].1 == FirstMatch(files, rules)
                          && forall j :: 0 <= j < i ==> rules[j].0 !in files
    decreases |rules|
  {
    if rules != [] && rules[0].0 !in files {
      assert NoUnknownRule(rules[1..]) by {
        forall i | 0 <= i < |rules[1..]| ensures rules[1..][i].1 != Unknown {
          assert rules[1..][i] == rules[i + 1];
        }
      }
      FirstMatchMeaning(files, rules[1..]);
      if FirstMatch(files, rules) != Unknown {
        var i :| 0 <= i < |rules[1..]| && rules[1..][i].0 in files && rules[1..][i].1 == FirstMatch(files, rules[1..])
                 && forall j :: 0 <= j < i ==> rules[1..][j].0 !in files;
        assert rules[i + 1] == rules[1..][i];
        forall j | 0 <= j < i + 1 ensures rules[j].0 !in files {
          if j > 0 {
            assert rules[j] == rules[1..][j - 1];
          }
        }
      } else {
        forall i | 0 <= i < |rules| ensures rules[i].0 !in files {
          if i > 0 {
            assert rules[i] == rules[1..][i - 1];
          }
        }
      }
    } else if rules != [] {
      assert rules[0].1 != Unknown;
    }
  }

  /** `_determine_result`.  When both report files exist the verdict is pass and
      the fail report is deleted. */
  method DetermineResult(fs: Fs, cfg: Config, gradingDir: Path, week: int) returns (r: Verdict)
    modifies fs
    ensures r == FirstMatch(old(fs.files), ResultRules(gradingDir, cfg, week))
    ensures fs.files == AfterDetermine(old(fs.files), cfg, gradingDir)
    ensures fs.clock == old(fs.clock)
  {
    ghost var files := fs.files;
    ghost var rules := ResultRules(gradingDir, cfg, week);
    FirstMatchCons(files, rules);
    FirstMatchCons(files, rules[1..]);
    FirstMatchCons(files, rules[1..][1..]);
    FirstMatchCons(files, rules[1..][1..][1..]);
    FirstMatchCons(files, rules[1..][1..][1..][1..]);
    FirstMatchCons(files, rules[1..][1..][1..][1..][1..]);
    assert rules[1..][1..][1..][1..][1..][1..] == [];

    var passFile := gradingDir + [cfg.passFile];
    var failFile := gradingDir + [cfg.failFile];
    if passFile in fs.files {
      if failFile in fs.files {
        fs.DeleteIfExists(failFile);
      }
      return Pass;
    }
    if failFile in fs.files {
      return Fail;
    }
    var parentGradingDir := Parent(gradingDir);
    var oldPassFile := parentGradingDir + ["week" + IntToString(week) + "_pass"];
    var oldFailFile := parentGradingDir + ["week" + IntToString(week) + "_fail"];
    if oldPassFile in fs.files {
      return Pass;
    }
    if oldFailFile in fs.files {
      return Fail;
    }
    var legacyPass := parentGradingDir + ["pass"];
    var legacyFail := parentGradingDir + ["fail"];
    if legacyPass in fs.files {
      return Pass;
    }
    if legacyFail in fs.files {
      return Fail;
    }
    return Unknown;
  }

  // ---------------------------------------------------------------- status

  datatype StudentStatus = StudentStatus(
    studentId: string, week: int,
    gradingDirExists: bool, weekGradingDirExists: bool,
    weekScriptExists: bool, driverScriptExists: bool,
    result: Verdict, lastModified: Option<int>)

  function StatusGradingDir(id: string): Path { ["students", id, "grading"] }

  function StatusWeekDir(cfg: Config, id: string, week: int): Path {
    StatusGradingDir(id) + [StatusWeekFolder(cfg, week)]
  }

  /** The report files whose modification time `get_student_status` reports,
      in order of preference. */
  function MtimeCandidates(files: Files, cfg: Config, id: string, week: int): seq<Path> {
    var gd := StatusGradingDir(id);
    var wd := StatusWeekDir(cfg, id, week);
    (if wd in files then [wd + [cfg.passFile], wd + [cfg.failFile]] else [])
    + [gd + ["week" + IntToString(week) + "_pass"], gd + ["week" + IntToString(week) + "_fail"],
       gd + ["pass"], gd + ["fail"]]
  }

  /** The modification time of the first path that exists. */
  function FirstMtime(files: Files, paths: seq<Path>): Option<int>
    decreases |paths|
  {
    if paths == [] then None
    else if paths[0] in files then Some(files[paths[0]].mtime)
    else FirstMtime(files, paths[1..])
  }

  lemma FirstMtimeCons(files: Files, paths: seq<Path>)
    requires paths != []
    ensures FirstMtime(files, paths) == if paths[0] in files then Some(files[paths[0]].mtime) else FirstMtime(files, paths[1..])
  {
  }

  function RulePaths(rules: seq<(Path, Verdict)>): (r: seq<Path>)
    ensures |r| == |rules| && forall i :: 0 <= i < |rules| ==> r[i] == rules[i].0
  {
    if rules == [] then [] else [rules[0].0] + RulePaths(rules[1..])
  }

  /** A timestamp exists exactly when a rule's file exists. */
  lemma {:induction false} FirstMtimeIffMatch(files: Files, rules: seq<(Path, Verdict)>)
    requires NoUnknownRule(rules)
    ensures FirstMtime(files, RulePaths(rules)).Some? <==> FirstMatch(files, rules) != Unknown
    decreases |rules|
  {
    if rules != [] {
      assert RulePaths(rules)[1..] == RulePaths(rules[1..]);
      if rules[0].0 !in files {
        assert NoUnknownRule(rules[1..]) by {
          forall i | 0 <= i < |rules[1..]| ensures rules[1..][i].1 != Unknown {
            assert rules[1..][i] == rules[i + 1];
          }
        }
        FirstMtimeIffMatch(files, rules[1..]);
      } else {
        assert rules[0].1 != Unknown;
      }
    }
  }

  /** When the week folder exists, the status has a timestamp exactly when it
      has a verdict: both consult the same six files. */
  lemma WeekStatusConsistent(files: Files, cfg: Config, id: string, week: int)
    requires StatusWeekDir(cfg, id, week) in files
    ensures FirstMtime(files, MtimeCandidates(files, cfg, id, week)).Some?
            <==> FirstMatch(files, ResultRules(StatusWeekDir(cfg, id, week), cfg, week)) != Unknown
  {
    var rules := ResultRules(StatusWeekDir(cfg, id, week), cfg, week);
    CandidatesFollowRules(files, cfg, id, week);
    FirstMtimeIffMatch(files, rules);
  }

  lemma CandidatesFollowRules(files: Files, cfg: Config, id: string, week: int)
    requires StatusWeekDir(cfg, id, week) in files
    ensures RulePaths(ResultRules(StatusWeekDir(cfg, id, week), cfg, week)) == MtimeCandidates(files, cfg, id, week)
  {
    var wd := StatusWeekDir(cfg, id, week);
    var gd := StatusGradingDir(id);
    assert Parent(wd) == gd;
    var n := IntToString(week);
    var cand := [wd + [cfg.passFile], wd + [cfg.failFile], gd + ["week" + n + "_pass"],
                 gd + ["week" + n + "_fail"], gd + ["pass"], gd + ["fail"]];
    assert MtimeCandidates(files, cfg, id, week) == cand;
    var r := RulePaths(ResultRules(wd, cfg, week));
    assert |r| == 6;
    assert forall i :: 0 <= i < 6 ==> r[i] == cand[i];
  }

  /** Without the week folder the two disagree: a legacy week<N>_pass in the
      grading folder gives a timestamp, while the verdict looks for legacy
      files one folder higher and finds none. */
  lemma LegacyStatusInconsistent(cfg: Config, id: string, week: int, stamp: int)
    requires var legacy := "week" + IntToString(week) + "_pass";
             StatusWeekFolder(cfg, week) != legacy && cfg.passFile != legacy && cfg.failFile != legacy
    ensures var gd := StatusGradingDir(id);
            var files := map[gd := Dir(0), gd + ["week" + IntToString(week) + "_pass"] := File(Blank, stamp)];
            FirstMtime(files, MtimeCandidates(files, cfg, id, week)) == Some(stamp)
            && FirstMatch(files, ResultRules(gd, cfg, week)) == Unknown
  {
    LegacyTimestamp(cfg, id, week, stamp);
    LegacyVerdict(cfg, id, week, stamp);
  }

  lemma LegacyTimestamp(cfg: Config, id: string, week: int, stamp: int)
    requires var legacy := "week" + IntToString(week) + "_pass";
             StatusWeekFolder(cfg, week) != legacy && cfg.passFile != legacy && cfg.failFile != legacy
    ensures var gd := StatusGradingDir(id);
            var files := map[gd := Dir(0), gd + ["week" + IntToString(week) + "_pass"] := File(Blank, stamp)];
            FirstMtime(files, MtimeCandidates(files, cfg, id, week)) == Some(stamp)
  {
    var gd := StatusGradingDir(id);
    var legacy := "week" + IntToString(week) + "_pass";
    var wd := StatusWeekDir(cfg, id, week);
    assert wd[3] != legacy && |wd| == 4;
  }

  lemma LegacyVerdict(cfg: Config, id: string, week: int, stamp: int)
    requires var legacy := "week" + IntToString(week) + "_pass";
             cfg.passFile != legacy && cfg.failFile != legacy
    ensures var gd := StatusGradingDir(id);
            var files := map[gd := Dir(0), gd + ["week" + IntToString(week) + "_pass"] := File(Blank, stamp)];
            FirstMatch(files, ResultRules(gd, cfg, week)) == Unknown
  {
    var gd := StatusGradingDir(id);
    var legacy := "week" + IntToString(week) + "_pass";
    var files := map[gd := Dir(0), gd + [legacy] := File(Blank, stamp)];
    var rules := ResultRules(gd, cfg, week);
    assert Parent(gd) == ["students", id];
    forall i | 0 <= i < |rules| ensures rules[i].0 !in files {
      if i < 2 {
        assert rules[i].0[3] != legacy;
      } else {
        assert |rules[i].0| == 3 && rules[i].0[2] != "grading";
      }
    }
    assert NoUnknownRule(rules);
    FirstMatchMeaning(files, rules);
  }

  /** The timestamp lookup of `get_student_status`: the week folder's reports
      first, then the legacy files of the grading folder. */
  method LastModified(files: Files, cfg: Config, id: string, week: int) returns (lastModified: Option<int>)
    ensures lastModified == FirstMtime(files, MtimeCandidates(files, cfg, id, week))
  {
    var gradingDir := ["students", id, "grading"];
    var weekGradingDir := gradingDir + [StatusWeekFolder(cfg, week)];
    var weekGradingDirExists := weekGradingDir in files;
    ghost var cands := MtimeCandidates(files, cfg, id, week);
    ghost var legacy := cands[|cands| - 4..];
    assert weekGradingDirExists ==> cands[2..] == legacy;
    assert !weekGradingDirExists ==> cands == legacy;
    FirstMtimeCons(files, legacy);
    FirstMtimeCons(files, legacy[1..]);
    FirstMtimeCons(files, legacy[1..][1..]);
    FirstMtimeCons(files, legacy[1..][1..][1..]);
    assert legacy[1..][1..][1..][1..] == [];
    if weekGradingDirExists {
      FirstMtimeCons(files, cands);
      FirstMtimeCons(files, cands[1..]);
      assert cands[1..][1..] == legacy;
    }

    lastModified := None;
    if weekGradingDirExists {
      var newPassFile := weekGradingDir + [cfg.passFile];
      var newFailFile := weekGradingDir + [cfg.failFile];
      if newPassFile in files {
        lastModified := Some(files[newPassFile].mtime);
      } else if newFailFile in files {
        lastModified := Some(files[newFailFile].mtime);
      }
    }
    if lastModified.None? {
      var passFile := gradingDir + ["week" + IntToString(week) + "_pass"];
      var failFile := gradingDir + ["week" + IntToString(week) + "_fail"];
      var oldPassFile := gradingDir + ["pass"];
      var oldFailFile := gradingDir + ["fail"];
      if passFile in files {
        lastModified := Some(files[passFile].mtime);
      } else if failFile in files {
        lastModified := Some(files[failFile].mtime);
      } else if oldPassFile in files {
        lastModified := Some(files[oldPassFile].mtime);
      } else if oldFailFile in files {
        lastModified := Some(files[oldFailFile].mtime);
      }
    }
  }

  /** What `_determine_result` leaves behind: a fail report beside a pass report is deleted. */
  function AfterDetermine(files: Files, cfg: Config, dir: Path): Files {
    if dir + [cfg.passFile] in files && dir + [cfg.failFile] in files then files - {dir + [cfg.failFile]} else files
  }

  /** `get_student_status`: the files afterwards and the status.  The verdict
      comes from the week folder when it exists and from the grading folder
      otherwise; the timestamp is read after the verdict. */
  function ReadStatus(files: Files, cfg: Config, id: string, week: int): (Files, StudentStatus) {
    var gd := StatusGradingDir(id);
    var wd := StatusWeekDir(cfg, id, week);
    if gd !in files then (files, StudentStatus(id, week, false, wd in files, false, false, Unknown, None))
    else
      var dir := if wd in files then wd else gd;
      var after := AfterDetermine(files, cfg, dir);
      (after, StudentStatus(id, week, true, wd in files,
                            gd + ["week" + IntToString(week) + "_grader.py"] in files,
                            gd + ["driver_template.py"] in files,
                            FirstMatch(files, ResultRules(dir, cfg, week)),
                            FirstMtime(after, MtimeCandidates(after, cfg, id, week))))
  }

  /** `get_student_status`. */
  method GetStudentStatus(fs: Fs, cfg: Config, id: string, week: int) returns (status: StudentStatus)
    modifies fs
    ensures (fs.files, status) == ReadStatus(old(fs.files), cfg, id, week)
    ensures fs.clock == old(fs.clock)
  {
    var gradingDir := ["students", id, "grading"];
    var weekGradingDir := gradingDir + [StatusWeekFolder(cfg, week)];
    var gradingDirExists := gradingDir in fs.files;
    var weekGradingDirExists := weekGradingDir in fs.files;
    status := StudentStatus(id, week, gradingDirExists, weekGradingDirExists, false, false, Unknown, None);
    if gradingDirExists {
      var weekScript := gradingDir + ["week" + IntToString(week) + "_grader.py"];
      var driverScript := gradingDir + ["driver_template.py"];
      status := status.(weekScriptExists := weekScript in fs.files, driverScriptExists := driverScript in fs.files);
      var result;
      if weekGradingDirExists {
        result := DetermineResult(fs, cfg, weekGradingDir, week);
      } else {
        result := DetermineResult(fs, cfg, gradingDir, week);
      }
      status := status.(result := result);
      var lastModified := LastModified(fs.files, cfg, id, week);
      status := status.(lastModified := lastModified);
    }
  }

  // ---------------------------------------------------------------- status is per student

  /** p lies at or below prefix. */
  predicate Under(prefix: Path, p: Path) {
    |p| >= |prefix| && p[..|prefix|] == prefix
  }

  /** The two file maps agree at and below prefix. */
  ghost predicate AgreeUnder(f1: Files, f2: Files, prefix: Path) {
    forall p :: Under(prefix, p) ==> (p in f1 <==> p in f2) && (p in f1 ==> f1[p] == f2[p])
  }

  /** The two file maps agree everywhere outside prefix. */
  ghost predicate AgreeOutside(f1: Files, f2: Files, prefix: Path) {
    forall p :: !Under(prefix, p) ==> (p in f1 <==> p in f2) && (p in f1 ==> f1[p] == f2[p])
  }

  lemma {:induction false} FirstMatchLocal(f1: Files, f2: Files, prefix: Path, rules: seq<(Path, Verdict)>)
    requires AgreeUnder(f1, f2, prefix)
    requires forall i :: 0 <= i < |rules| ==> Under(prefix, rules[i].0)
    ensures FirstMatch(f1, rules) == FirstMatch(f2, rules)
    decreases |rules|
  {
    if rules != [] {
      assert Under(prefix, rules[0].0);
      assert forall i :: 0 <= i < |rules[1..]| ==> rules[1..][i] == rules[i + 1];
      FirstMatchLocal(f1, f2, prefix, rules[1..]);
    }
  }

  lemma {:induction false} FirstMtimeLocal(f1: Files, f2: Files, prefix: Path, paths: seq<Path>)
    requires AgreeUnder(f1, f2, prefix)
    requires forall i :: 0 <= i < |paths| ==> Under(prefix, paths[i])
    ensures FirstMtime(f1, paths) == FirstMtime(f2, paths)
    decreases |paths|
  {
    if paths != [] {
      assert Under(prefix, paths[0]);
      assert forall i :: 0 <= i < |paths[1..]| ==> paths[1..][i] == paths[i + 1];
      FirstMtimeLocal(f1, f2, prefix, paths[1..]);
    }
  }

  lemma UnderExtend(prefix: Path, p: Path, rest: Path)
    requires Under(prefix, p)
    ensures Under(prefix, p + rest)
  {
    assert (p + rest)[..|prefix|] == p[..|prefix|];
  }

  lemma UnderParent(prefix: Path, p: Path)
    requires Under(prefix, p) && |p| > |prefix|
    ensures Under(prefix, Parent(p))
  {
    assert Parent(p)[..|prefix|] == p[..|prefix|];
  }

  /** Every file `_determine_result` consults lies under the student's folder. */
  lemma RulesUnder(prefix: Path, dir: Path, cfg: Config, week: int)
    requires Under(prefix, dir) && |dir| > |prefix|
    ensures forall i :: 0 <= i < |ResultRules(dir, cfg, week)| ==> Under(prefix, ResultRules(dir, cfg, week)[i].0)
  {
    var n := "week" + IntToString(week);
    UnderParent(prefix, dir);
    UnderExtend(prefix, dir, [cfg.passFile]);
    UnderExtend(prefix, dir, [cfg.failFile]);
    UnderExtend(prefix, Parent(dir), [n + "_pass"]);
    UnderExtend(prefix, Parent(dir), [n + "_fail"]);
    UnderExtend(prefix, Parent(dir), ["pass"]);
    UnderExtend(prefix, Parent(dir), ["fail"]);
  }

  /** ... and so does every file whose timestamp `get_student_status` reads. */
  lemma CandidatesUnder(files: Files, cfg: Config, id: string, week: int)
    ensures var cands := MtimeCandidates(files, cfg, id, week);
            forall i :: 0 <= i < |cands| ==> Under(["students", id], cands[i])
  {
    var pre := ["students", id];
    var gd := StatusGradingDir(id);
    var wd := StatusWeekDir(cfg, id, week);
    var n := "week" + IntToString(week);
    assert Under(pre, gd);
    UnderExtend(pre, gd, [StatusWeekFolder(cfg, week)]);
    UnderExtend(pre, wd, [cfg.passFile]);
    UnderExtend(pre, wd, [cfg.failFile]);
    UnderExtend(pre, gd, [n + "_pass"]);
    UnderExtend(pre, gd, [n + "_fail"]);
    UnderExtend(pre, gd, ["pass"]);
    UnderExtend(pre, gd, ["fail"]);
  }

  lemma AfterDetermineLocal(f1: Files, f2: Files, cfg: Config, dir: Path, prefix: Path)
    requires AgreeUnder(f1, f2, prefix) && Under(prefix, dir)
    ensures AgreeUnder(AfterDetermine(f1, cfg, dir), AfterDetermine(f2, cfg, dir), prefix)
  {
    UnderExtend(prefix, dir, [cfg.passFile]);
    UnderExtend(prefix, dir, [cfg.failFile]);
  }

  /** The status of a student depends only on the files of that student. */
  lemma ReadStatusLocal(f1: Files, f2: Files, cfg: Config, id: string, week: int)
    requires AgreeUnder(f1, f2, ["students", id])
    ensures ReadStatus(f1, cfg, id, week).1 == ReadStatus(f2, cfg, id, week).1
    ensures AgreeUnder(ReadStatus(f1, cfg, id, week).0, ReadStatus(f2, cfg, id, week).0, ["students", id])
  {
    var pre := ["students", id];
    var gd := StatusGradingDir(id);
    var wd := StatusWeekDir(cfg, id, week);
    assert Under(pre, gd);
    UnderExtend(pre, gd, [StatusWeekFolder(cfg, week)]);
    UnderExtend(pre, gd, ["week" + IntToString(week) + "_grader.py"]);
    UnderExtend(pre, gd, ["driver_template.py"]);
    if gd in f1 {
      var dir := if wd in f1 then wd else gd;
      RulesUnder(pre, dir, cfg, week);
      FirstMatchLocal(f1, f2, pre, ResultRules(dir, cfg, week));
      var a1, a2 := AfterDetermine(f1, cfg, dir), AfterDetermine(f2, cfg, dir);
      AfterDetermineLocal(f1, f2, cfg, dir, pre);
      assert MtimeCandidates(a1, cfg, id, week) == MtimeCandidates(a2, cfg, id, week);
      CandidatesUnder(a1, cfg, id, week);
      FirstMtimeLocal(a1, a2, pre, MtimeCandidates(a1, cfg, id, week));
    }
  }

  /** Reading a student's status changes nothing outside that student's folder. */
  lemma ReadStatusConfined(files: Files, cfg: Config, id: string, week: int)
    ensures AgreeOutside(ReadStatus(files, cfg, id, week).0, files, ["students", id])
  {
    var pre := ["students", id];
    var gd := StatusGradingDir(id);
    var wd := StatusWeekDir(cfg, id, week);
    assert Under(pre, gd);
    UnderExtend(pre, gd, [StatusWeekFolder(cfg, week)]);
    if gd in files {
      var dir := if wd in files then wd else gd;
      UnderExtend(pre, dir, [cfg.failFile]);
    }
  }

  /** Paths below two different students are different. */
  lemma OtherStudent(id: string, other: string, p: Path)
    requires id != other && Under(["students", other], p)
    ensures !Under(["students", id], p)
  {
    assert p[1] == other;
  }

  // ---------------------------------------------------------------- cleanup of legacy results

  /** The names `cleanup_old_results` removes: `week<N>_pass` and `week<N>_fail`
      for one week, or `pass`, `fail`, `week*_pass` and `week*_fail` for all. */
  predicate OldResultName(n: string, week: Option<int>) {
    match week
    case Some(w) => n == "week" + IntToString(w) + "_pass" || n == "week" + IntToString(w) + "_fail"
    case None =>
      n == "pass" || n == "fail"
      || (|n| >= 9 && StartsWith(n, "week") && (EndsWith(n, "_pass") || EndsWith(n, "_fail")))
  }

  /** Cleaning up every week removes at least what cleaning up one week removes. */
  lemma AllWeeksCoverOneWeek(n: string, w: int)
    requires OldResultName(n, Some(w))
    ensures OldResultName(n, None)
  {
    var digits := IntToString(w);
    assert |digits| >= 1;
    var p := "week" + digits + "_pass";
    var f := "week" + digits + "_fail";
    assert p[..4] == "week" && p[|p| - 5..] == "_pass";
    assert f[..4] == "week" && f[|f| - 5..] == "_fail";
  }

  /** The files `cleanup_old_results` deletes from the grading folder. */
  function OldResults(files: Files, gradingDir: Path, week: Option<int>): set<Path> {
    set q | q in files && ChildOf(gradingDir, q) && files[q].File? && OldResultName(Name(q), week)
  }

  /** `cleanup_old_results(student_id, week)`.  Directories with a matching
      name are not files and are left alone. */
  method CleanupOldResults(fs: Fs, id: string, week: Option<int>)
    modifies fs
    ensures fs.files == if StatusGradingDir(id) in old(fs.files)
                        then old(fs.files) - OldResults(old(fs.files), StatusGradingDir(id), week)
                        else old(fs.files)
    ensures fs.clock == old(fs.clock)
  {
    var gradingDir := ["students", id, "grading"];
    if gradingDir !in fs.files {
      return;
    }
    var matches := OldResults(fs.files, gradingDir, week);
    ghost var all := matches;
    while matches != {}
      invariant matches <= all
      invariant fs.files == old(fs.files) - (all - matches)
      invariant fs.clock == old(fs.clock)
      decreases |matches|
    {
      var resultFile :| resultFile in matches;
      fs.DeleteIfExists(resultFile);
      matches := matches - {resultFile};
    }
  }
}
