/** The grading scripts that live in a student's grading folder:
    grading/week01/grade.py (Java), grading/grade_template.py (Python),
    grading/grade_cpp_template.py (C++) and grading/driver_template.py (bare
    pass/fail markers).  Each is written step by step, as the scripts are, and
    its effect is tied to the shared MarkerProtocol. */
module GradeScripts {
  import opened FileSystem
  import opened Commands
  import opened MarkerProtocol

  const PassName := "results.pass"
  const FailName := "results.fail"

  /** week01/grade.py: compile the auto-grader, find the student's .java files,
      compile them, run Week1AutoGrader. */
  function Week01Steps(problemDir: Path, graderCompile: Run, studentCompile: Run, autoGrader: Run): seq<Step> {
    [Command(graderCompile), RequireGlob(problemDir, [".java"]), Command(studentCompile), Command(autoGrader)]
  }

  /** grade_template.py: some .py file, then main.py, then run main.py. */
  function PythonSteps(problemDir: Path, run: Run): seq<Step> {
    [RequireGlob(problemDir, [".py"]), RequireFile(problemDir + ["main.py"]), Command(run)]
  }

  /** grade_cpp_template.py: some .cpp or .cc file, compile, the executable, run it. */
  function CppSteps(problemDir: Path, compile: Run, run: Run): seq<Step> {
    [RequireGlob(problemDir, [".cpp", ".cc"]), Command(compile), RequireFile(problemDir + ["main"]), Command(run)]
  }

  /** driver_template.py: the repository next to the grading folder has main.py. */
  function DriverSteps(gradingDir: Path, raises: bool): seq<Step> {
    if raises then [Raises] else [RequireFile(Parent(gradingDir) + ["repo", "main.py"])]
  }

  /** grading/week01/grade.py run as `python3 grade.py <problem_directory>` from
      gradingDir; `resolve` stands for `Path(...).resolve()`.  The result is the
      process exit status. */
  method Week01Grade(fs: Fs, argv: seq<string>, resolve: string -> Path, gradingDir: Path,
                     graderCompile: Run, studentCompile: Run, autoGrader: Run)
    returns (exitCode: int)
    modifies fs
    ensures fs.clock == old(fs.clock)
    ensures |argv| != 2 ==> exitCode == 1 && fs.files == old(fs.files)
    ensures |argv| == 2 ==>
              var (after, ok) := Protocol(old(fs.files), gradingDir + [PassName], gradingDir + [FailName],
                                          Week01Steps(resolve(argv[1]), graderCompile, studentCompile, autoGrader),
                                          Marker(true), Marker(false), old(fs.clock));
              fs.files == after && exitCode == ExitCode(ok)
  {
    if |argv| != 2 {
      return 1;  // usage
    }
    var problemDir := resolve(argv[1]);
    var resultsPass, resultsFail := gradingDir + [PassName], gradingDir + [FailName];
    fs.DeleteIfExists(resultsPass);
    fs.DeleteIfExists(resultsFail);
    ghost var cleaned := fs.files;
    assert cleaned == old(fs.files) - {resultsPass, resultsFail};
    ghost var steps := Week01Steps(problemDir, graderCompile, studentCompile, autoGrader);
    ghost var javaExts := [".java"];
    assert javaExts[0] == ".java";
    RunStepsUnfold(cleaned, steps);

    var success := false;
    fs.Apply(graderCompile.writes);
    ghost var f1 := fs.files;
    RunStepsUnfold(f1, steps[1..]);
    assert AnyGlob(f1, problemDir, javaExts) <==> Glob(f1, problemDir, ".java") != {};
    if !Succeeded(graderCompile) {
      fs.Write(resultsFail, Marker(false));
    } else if Glob(fs.files, problemDir, ".java") == {} {
      fs.Write(resultsFail, Marker(false));
    } else {
      fs.Apply(studentCompile.writes);
      RunStepsUnfold(fs.files, steps[1..][1..][1..]);
      if !Succeeded(studentCompile) {
        fs.Write(resultsFail, Marker(false));
      } else {
        fs.Apply(autoGrader.writes);
        if Succeeded(autoGrader) {
          fs.Write(resultsPass, Marker(true));
          success := true;
        } else {
          fs.Write(resultsFail, Marker(false));
        }
      }
    }
    exitCode := if success then 0 else 1;
    RunStepsUnfold(f1, steps[1..][1..]);
    assert steps[1..][1..][1..][1..] == [];
  }

  /** grading/grade_template.py. */
  method PythonGrade(fs: Fs, argv: seq<string>, resolve: string -> Path, gradingDir: Path, run: Run)
    returns (exitCode: int)
    modifies fs
    ensures fs.clock == old(fs.clock)
    ensures |argv| != 2 ==> exitCode == 1 && fs.files == old(fs.files)
    ensures |argv| == 2 ==>
              var (after, ok) := Protocol(old(fs.files), gradingDir + [PassName], gradingDir + [FailName],
                                          PythonSteps(resolve(argv[1]), run),
                                          Marker(true), Marker(false), old(fs.clock));
              fs.files == after && exitCode == ExitCode(ok)
  {
    if |argv| != 2 {
      return 1;  // usage
    }
    var problemDir := resolve(argv[1]);
    var resultsPass, resultsFail := gradingDir + [PassName], gradingDir + [FailName];
    fs.DeleteIfExists(resultsPass);
    fs.DeleteIfExists(resultsFail);
    ghost var cleaned := fs.files;
    assert cleaned == old(fs.files) - {resultsPass, resultsFail};
    ghost var steps := PythonSteps(problemDir, run);
    ghost var pyExts := [".py"];
    assert pyExts[0] == ".py";
    assert AnyGlob(cleaned, problemDir, pyExts) <==> Glob(cleaned, problemDir, ".py") != {};
    RunStepsUnfold(cleaned, steps);
    RunStepsUnfold(cleaned, steps[1..]);
    RunStepsUnfold(cleaned, steps[1..][1..]);
    assert steps[1..][1..][1..] == [];

    var success := false;
    if Glob(fs.files, problemDir, ".py") == {} {
      fs.Write(resultsFail, Marker(false));
    } else if problemDir + ["main.py"] !in fs.files {
      fs.Write(resultsFail, Marker(false));
    } else {
      fs.Apply(run.writes);
      if Succeeded(run) {
        fs.Write(resultsPass, Marker(true));
        success := true;
      } else {
        fs.Write(resultsFail, Marker(false));
      }
    }
    exitCode := if success then 0 else 1;
  }

  /** The `finally` clause of grade_cpp_template.py: an executable file is
      unlinked; a directory of that name makes `unlink` raise, the bare
      `except` swallows it and the directory stays. */
  function RemoveExecutable(files: Files, executable: Path): (r: Files)
    ensures executable in files && files[executable].File? ==> executable !in r
    ensures executable in files && files[executable].Dir? ==> executable in r && r[executable] == files[executable]
    ensures forall q :: q != executable ==> (q in r <==> q in files) && (q in r ==> r[q] == files[q])
  {
    if executable in files && files[executable].File? then files - {executable} else files
  }

  /** grading/grade_cpp_template.py.  Whatever happens after the usage check,
      the compiled `main` in the problem directory is removed at the end. */
  method CppGrade(fs: Fs, argv: seq<string>, resolve: string -> Path, gradingDir: Path, compile: Run, run: Run)
    returns (exitCode: int)
    modifies fs
    ensures fs.clock == old(fs.clock)
    ensures |argv| != 2 ==> exitCode == 1 && fs.files == old(fs.files)
    ensures |argv| == 2 ==>
              var (after, ok) := Protocol(old(fs.files), gradingDir + [PassName], gradingDir + [FailName],
                                          CppSteps(resolve(argv[1]), compile, run),
                                          Marker(true), Marker(false), old(fs.clock));
              fs.files == RemoveExecutable(after, resolve(argv[1]) + ["main"]) && exitCode == ExitCode(ok)
  {
    if |argv| != 2 {
      return 1;  // usage
    }
    var problemDir := resolve(argv[1]);
    var resultsPass, resultsFail := gradingDir + [PassName], gradingDir + [FailName];
    fs.DeleteIfExists(resultsPass);
    fs.DeleteIfExists(resultsFail);
    ghost var cleaned := fs.files;
    assert cleaned == old(fs.files) - {resultsPass, resultsFail};
    ghost var steps := CppSteps(problemDir, compile, run);
    ghost var exts := [".cpp", ".cc"];
    assert AnyGlob(cleaned, problemDir, exts) <==>
           Glob(cleaned, problemDir, ".cpp") + Glob(cleaned, problemDir, ".cc") != {} by {
      assert exts[0] == ".cpp" && exts[1] == ".cc";
    }
    RunStepsUnfold(cleaned, steps);
    ghost var f1 := cleaned + compile.writes;
    RunStepsUnfold(f1, steps[1..]);
    RunStepsUnfold(f1, steps[1..][1..]);
    RunStepsUnfold(f1, steps[1..][1..][1..]);
    assert steps[1..][1..][1..][1..] == [];

    var success := false;
    if Glob(fs.files, problemDir, ".cpp") + Glob(fs.files, problemDir, ".cc") == {} {
      fs.Write(resultsFail, Marker(false));
    } else {
      fs.Apply(compile.writes);
      if !Succeeded(compile) {
        fs.Write(resultsFail, Marker(false));
      } else if problemDir + ["main"] !in fs.files {
        fs.Write(resultsFail, Marker(false));
      } else {
        fs.Apply(run.writes);
        if Succeeded(run) {
          fs.Write(resultsPass, Marker(true));
          success := true;
        } else {
          fs.Write(resultsFail, Marker(false));
        }
      }
    }
    // finally: remove the compiled executable
    var executable := problemDir + ["main"];
    if executable in fs.files && fs.files[executable].File? {
      fs.DeleteIfExists(executable);
    }
    exitCode := if success then 0 else 1;
  }

  /** grading/driver_template.py, run with the grading folder as working
      directory.  Its `main` returns nothing, so the process always exits 0. */
  method DriverMain(fs: Fs, gradingDir: Path, evaluationRaises: bool) returns (exitCode: int)
    modifies fs
    ensures fs.clock == old(fs.clock)
    ensures exitCode == 0
    ensures fs.files == Protocol(old(fs.files), gradingDir + ["pass"], gradingDir + ["fail"],
                                 DriverSteps(gradingDir, evaluationRaises), Blank, Blank, old(fs.clock)).0
  {
    var passFile, failFile := gradingDir + ["pass"], gradingDir + ["fail"];
    fs.DeleteIfExists(passFile);
    fs.DeleteIfExists(failFile);
    ghost var cleaned := fs.files;
    assert cleaned == old(fs.files) - {passFile, failFile};
    ghost var steps := DriverSteps(gradingDir, evaluationRaises);
    RunStepsUnfold(cleaned, steps);
    assert steps[1..] == [];
    assert passFile !in cleaned && failFile !in cleaned;
    var success := EvaluateStudentCode(fs, gradingDir, evaluationRaises);
    if success {
      fs.Touch(passFile);
    } else {
      fs.Touch(failFile);
    }
    exitCode := 0;
  }

  /** `evaluate_student_code`: succeeds exactly when ../repo/main.py exists;
      an exception counts as failure. */
  method EvaluateStudentCode(fs: Fs, gradingDir: Path, raises: bool) returns (success: bool)
    ensures success <==> !raises && Parent(gradingDir) + ["repo", "main.py"] in fs.files
  {
    if raises {
      return false;
    }
    var mainFile := Parent(gradingDir) + ["repo", "main.py"];
    success := mainFile in fs.files;
  }

  /** The exit status of week01/grade.py tells its caller which marker it left,
      provided the two compilations write no marker and Week1AutoGrader writes
      only the one matching its exit status. */
  lemma Week01ExitMatchesMarker(files: Files, problemDir: Path, gradingDir: Path,
                                graderCompile: Run, studentCompile: Run, autoGrader: Run, stamp: int)
    requires LeavesAlone(graderCompile, {gradingDir + [PassName], gradingDir + [FailName]})
    requires LeavesAlone(studentCompile, {gradingDir + [PassName], gradingDir + [FailName]})
    requires HonestStep(autoGrader, true, gradingDir + [PassName], gradingDir + [FailName])
    ensures var (after, ok) := Protocol(files, gradingDir + [PassName], gradingDir + [FailName],
                                        Week01Steps(problemDir, graderCompile, studentCompile, autoGrader),
                                        Marker(true), Marker(false), stamp);
            (gradingDir + [PassName] in after <==> ExitCode(ok) == 0)
            && (gradingDir + [FailName] in after <==> ExitCode(ok) != 0)
  {
    assert (gradingDir + [PassName])[|gradingDir|] != (gradingDir + [FailName])[|gradingDir|];
    var steps := Week01Steps(problemDir, graderCompile, studentCompile, autoGrader);
    assert MarkersHonest(steps, gradingDir + [PassName], gradingDir + [FailName]) by {
      forall i | 0 <= i < |steps| && steps[i].Command?
        ensures HonestStep(steps[i].run, i == |steps| - 1, gradingDir + [PassName], gradingDir + [FailName])
      {
        assert i == 0 || i == 2 || i == 3;
      }
    }
    ExactlyOneMarker(files, gradingDir + [PassName], gradingDir + [FailName],
                     Week01Steps(problemDir, graderCompile, studentCompile, autoGrader),
                     Marker(true), Marker(false), stamp);
  }

  /** A failed grader compilation ends week01/grade.py at once: the student's
      code is neither compiled nor run, whatever those commands would do. */
  lemma Week01CompileFailureStops(files: Files, problemDir: Path, gradingDir: Path,
                                  graderCompile: Run, studentCompile: Run, autoGrader: Run, stamp: int)
    requires !Succeeded(graderCompile)
    ensures var (after, ok) := Protocol(files, gradingDir + [PassName], gradingDir + [FailName],
                                        Week01Steps(problemDir, graderCompile, studentCompile, autoGrader),
                                        Marker(true), Marker(false), stamp);
            !ok && after == ((files - {gradingDir + [PassName], gradingDir + [FailName]}) + graderCompile.writes)
                              [gradingDir + [FailName] := File(Marker(false), stamp)]
  {
    var steps := Week01Steps(problemDir, graderCompile, studentCompile, autoGrader);
    var cleaned := files - {gradingDir + [PassName], gradingDir + [FailName]};
    StopsAtFirstFailure(cleaned, steps[..1], steps[1..]);
    assert steps[..1] + steps[1..] == steps;
  }

  /** With no .cpp or .cc file the C++ script fails before compiling anything,
      and leaves no executable behind. */
  lemma CppNoSourceFails(files: Files, problemDir: Path, gradingDir: Path, compile: Run, run: Run, stamp: int)
    requires forall q :: q in files && ChildOf(problemDir, q) ==> !Strings.EndsWith(Name(q), ".cpp") && !Strings.EndsWith(Name(q), ".cc")
    ensures var (after, ok) := Protocol(files, gradingDir + [PassName], gradingDir + [FailName],
                                        CppSteps(problemDir, compile, run), Marker(true), Marker(false), stamp);
            !ok && after - {problemDir + ["main"]} ==
                   ((files - {gradingDir + [PassName], gradingDir + [FailName]})[gradingDir + [FailName] := File(Marker(false), stamp)])
                   - {problemDir + ["main"]}
  {
    var cleaned := files - {gradingDir + [PassName], gradingDir + [FailName]};
    var exts := [".cpp", ".cc"];
    assert !AnyGlob(cleaned, problemDir, exts) by {
      forall i | 0 <= i < |exts| ensures Glob(cleaned, problemDir, exts[i]) == {} {
        assert exts[i] == ".cpp" || exts[i] == ".cc";
      }
    }
  }
}
