/** The protocol every grading script follows: delete both markers, run the
    steps in order, let the first failing step write the fail marker and stop,
    write the pass marker only when every step succeeded, and exit with 0
    exactly on a pass.  The scripts in the grading folder are instances of it
    (see module GradeScripts). */
module MarkerProtocol {
  import opened FileSystem
  import opened Commands

  datatype Step =
    | Command(run: Run)                       // run an external command; it succeeds on exit code 0
    | RequireGlob(dir: Path, exts: seq<string>)  // some entry of dir ends with one of exts
    | RequireFile(path: Path)                 // the path exists
    | Raises                                  // the step raises; the handler counts it as a failure

  /** Some entry directly inside dir ends with one of the extensions. */
  predicate AnyGlob(files: Files, dir: Path, exts: seq<string>) {
    exists i :: 0 <= i < |exts| && Glob(files, dir, exts[i]) != {}
  }

  predicate StepOk(files: Files, s: Step) {
    match s
    case Command(run) => Succeeded(run)
    case RequireGlob(dir, exts) => AnyGlob(files, dir, exts)
    case RequireFile(p) => p in files
    case Raises => false
  }

  /** The files a step leaves behind: a command adds what it wrote, whatever its outcome. */
  function StepEffect(files: Files, s: Step): Files {
    if s.Command? then files + s.run.writes else files
  }

  /** Runs the steps in order and stops at the first one that fails.
      Returns the files afterwards and whether every step succeeded. */
  function RunSteps(files: Files, steps: seq<Step>): (Files, bool)
    decreases |steps|
  {
    if steps == [] then (files, true)
    else
      var after := StepEffect(files, steps[0]);
      if StepOk(files, steps[0]) then RunSteps(after, steps[1..]) else (after, false)
  }

  /** One step of RunSteps, for scripts that follow the protocol statement by statement. */
  lemma RunStepsUnfold(files: Files, steps: seq<Step>)
    requires steps != []
    ensures RunSteps(files, steps) ==
              if StepOk(files, steps[0]) then RunSteps(StepEffect(files, steps[0]), steps[1..])
              else (StepEffect(files, steps[0]), false)
  {
  }

  /** The whole script: both markers deleted, the steps run, one marker written. */
  function Protocol(files: Files, pass: Path, fail: Path, steps: seq<Step>,
                    passBody: Body, failBody: Body, stamp: int): (Files, bool)
  {
    var (after, ok) := RunSteps(files - {pass, fail}, steps);
    if ok then (after[pass := File(passBody, stamp)], true)
    else (after[fail := File(failBody, stamp)], false)
  }

  /** The exit status of the scripts' `sys.exit(0 if success else 1)`. */
  function ExitCode(ok: bool): (code: int)
    ensures code == 0 <==> ok
  {
    if ok then 0 else 1
  }

  /** No step writes either marker. */
  predicate MarkersUntouched(steps: seq<Step>, pass: Path, fail: Path) {
    forall i :: 0 <= i < |steps| && steps[i].Command? ==> LeavesAlone(steps[i].run, {pass, fail})
  }

  /** Steps that write no marker cannot make a marker appear. */
  lemma {:induction false} RunStepsKeepsAbsent(files: Files, steps: seq<Step>, pass: Path, fail: Path)
    requires pass !in files && fail !in files
    requires MarkersUntouched(steps, pass, fail)
    ensures pass !in RunSteps(files, steps).0 && fail !in RunSteps(files, steps).0
    decreases |steps|
  {
    if steps != [] {
      var after := StepEffect(files, steps[0]);
      assert pass !in after && fail !in after by {
        if steps[0].Command? {
          assert LeavesAlone(steps[0].run, {pass, fail});
        }
      }
      assert MarkersUntouched(steps[1..], pass, fail) by {
        forall i | 0 <= i < |steps[1..]| && steps[1..][i].Command?
          ensures LeavesAlone(steps[1..][i].run, {pass, fail})
        {
          assert steps[1..][i] == steps[i + 1];
        }
      }
      RunStepsKeepsAbsent(after, steps[1..], pass, fail);
    }
  }

  /** A command writes only the marker that matches its outcome: a succeeding
      one no fail marker, and a pass marker only when it succeeds as the last
      step (an earlier step's pass marker would survive a later failure). */
  predicate HonestStep(run: Run, last: bool, pass: Path, fail: Path) {
    (Succeeded(run) ==> LeavesAlone(run, {fail}))
    && (!(Succeeded(run) && last) ==> LeavesAlone(run, {pass}))
  }

  predicate MarkersHonest(steps: seq<Step>, pass: Path, fail: Path) {
    forall i :: 0 <= i < |steps| && steps[i].Command? ==> HonestStep(steps[i].run, i == |steps| - 1, pass, fail)
  }

  /** Steps that leave the markers alone are honest. */
  lemma UntouchedIsHonest(steps: seq<Step>, pass: Path, fail: Path)
    requires MarkersUntouched(steps, pass, fail)
    ensures MarkersHonest(steps, pass, fail)
  {
    forall i | 0 <= i < |steps| && steps[i].Command?
      ensures HonestStep(steps[i].run, i == |steps| - 1, pass, fail)
    {
      assert LeavesAlone(steps[i].run, {pass, fail});
    }
  }

  /** With honest steps, a pass marker after the steps means they all
      succeeded, and a fail marker means one failed. */
  lemma {:induction false} RunStepsHonest(files: Files, steps: seq<Step>, pass: Path, fail: Path)
    requires pass !in files && fail !in files
    requires MarkersHonest(steps, pass, fail)
    ensures var (after, ok) := RunSteps(files, steps);
            (pass in after ==> ok) && (fail in after ==> !ok)
    decreases |steps|
  {
    if steps != [] {
      var after := StepEffect(files, steps[0]);
      if steps[0].Command? {
        assert HonestStep(steps[0].run, 0 == |steps| - 1, pass, fail);
      }
      if StepOk(files, steps[0]) && |steps| > 1 {
        assert MarkersHonest(steps[1..], pass, fail) by {
          forall i | 0 <= i < |steps[1..]| && steps[1..][i].Command?
            ensures HonestStep(steps[1..][i].run, i == |steps[1..]| - 1, pass, fail)
          {
            assert steps[1..][i] == steps[i + 1];
          }
        }
        RunStepsHonest(after, steps[1..], pass, fail);
      } else if StepOk(files, steps[0]) {
        assert steps[1..] == [];
        assert RunSteps(after, steps[1..]) == (after, true);
      }
    }
  }

  /** After the protocol exactly one marker exists, and it is the pass marker
      exactly when the script reports success. */
  lemma ExactlyOneMarker(files: Files, pass: Path, fail: Path, steps: seq<Step>,
                         passBody: Body, failBody: Body, stamp: int)
    requires pass != fail
    requires MarkersHonest(steps, pass, fail)
    ensures var (after, ok) := Protocol(files, pass, fail, steps, passBody, failBody, stamp);
            (pass in after <==> ok) && (fail in after <==> !ok)
  {
    RunStepsHonest(files - {pass, fail}, steps, pass, fail);
  }

  /** The script succeeds exactly when every step succeeds, each judged on the
      files left by the steps before it. */
  lemma {:induction false} OkIffEveryStepOk(files: Files, steps: seq<Step>)
    ensures RunSteps(files, steps).1 <==> forall i :: 0 <= i < |steps| ==> StepOk(StatesBefore(files, steps)[i], steps[i])
    decreases |steps|
  {
    if steps != [] {
      var after := StepEffect(files, steps[0]);
      OkIffEveryStepOk(after, steps[1..]);
      StatesBeforeShift(files, steps);
    }
  }

  /** The files each step starts from, assuming every earlier step ran. */
  function StatesBefore(files: Files, steps: seq<Step>): (r: seq<Files>)
    ensures |r| == |steps|
    decreases |steps|
  {
    if steps == [] then [] else [files] + StatesBefore(StepEffect(files, steps[0]), steps[1..])
  }

  lemma StatesBeforeShift(files: Files, steps: seq<Step>)
    requires steps != []
    ensures StatesBefore(files, steps)[0] == files
    ensures forall i :: 1 <= i < |steps| ==>
              StatesBefore(files, steps)[i] == StatesBefore(StepEffect(files, steps[0]), steps[1..])[i - 1]
  {
  }

  /** Once a step fails, the steps after it never run: their files are not written. */
  lemma {:induction false} StopsAtFirstFailure(files: Files, done: seq<Step>, rest: seq<Step>)
    requires !RunSteps(files, done).1
    ensures RunSteps(files, done + rest) == RunSteps(files, done)
    decreases |done|
  {
    assert done != [];
    assert (done + rest)[0] == done[0];
    assert (done + rest)[1..] == done[1..] + rest;
    if StepOk(files, done[0]) {
      StopsAtFirstFailure(StepEffect(files, done[0]), done[1..], rest);
    }
  }
}
