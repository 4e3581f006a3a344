/** The week-1 grader chain: grading/week01/BasicGrader.java, the decorator
    of grading/week01/GraderDecorator.java, and the entry point
    grading/week01/Week1AutoGrader.java.  The three pattern graders inspect
    the student's classes through reflection; here each is known only by its
    category and by what its `performAdditionalGrading` did, given as an
    input: the calls it made on its result, or the exception it threw. */
module Week01Grading {
  import opened Wrappers
  import opened Strings
  import opened FileSystem
  import opened Week01Results
  import opened Week01Report

  /** The decorators of the week-1 chain. */
  datatype Extra = FactoryPattern | SingletonPattern | IntegrationTests

  /** `getAdditionalCategory` of each decorator. */
  function ExtraCategory(e: Extra): string {
    match e
    case FactoryPattern => "Factory Pattern"
    case SingletonPattern => "Singleton Pattern"
    case IntegrationTests => "Integration Tests"
  }

  /** A grader: the basic grader, or a decorator around another grader. */
  datatype Chain = Basic | Decorated(inner: Chain, extra: Extra)

  const BasicCategory := "Basic Validation"

  /** `getGradingCategory`: the wrapped category, " + ", the decorator's own. */
  function Category(g: Chain): string {
    match g
    case Basic => BasicCategory
    case Decorated(inner, e) => Category(inner) + " + " + ExtraCategory(e)
  }

  /** The decorators from the innermost outwards. */
  function Extras(g: Chain): seq<Extra> {
    match g
    case Basic => []
    case Decorated(inner, e) => Extras(inner) + [e]
  }

  /** The category names every decorator, from the innermost outwards, after
      "Basic Validation". */
  function CategoryOf(extras: seq<Extra>): string
    decreases |extras|
  {
    if extras == [] then BasicCategory
    else CategoryOf(extras[..|extras| - 1]) + " + " + ExtraCategory(extras[|extras| - 1])
  }

  /** The category is determined by the decorators and their order alone, and
      always starts with the basic category. */
  lemma {:induction false} CategoryByExtras(g: Chain)
    ensures Category(g) == CategoryOf(Extras(g))
    ensures StartsWith(Category(g), BasicCategory)
  {
    match g
    case Basic =>
    case Decorated(inner, e) =>
      CategoryByExtras(inner);
      assert Extras(g)[..|Extras(g)| - 1] == Extras(inner);
      var c := Category(inner);
      assert Category(g) == c + (" + " + ExtraCategory(e));
      assert Category(g)[..|BasicCategory|] == c[..|BasicCategory|];
  }

  /** The decorator constructor: a missing grader is rejected. */
  function Decorate(inner: Option<Chain>, e: Extra): (r: Result<Chain>)
    ensures r.Err? <==> inner.None?
    ensures r.Err? ==> r.error == "Grader cannot be null"
    ensures r.Ok? ==> r.value.Decorated? && r.value.inner == inner.value && r.value.extra == e
    ensures r.Ok? ==> Category(r.value) == Category(inner.value) + " + " + ExtraCategory(e)
  {
    if inner.None? then Err("Grader cannot be null") else Ok(Decorated(inner.value, e))
  }

  /** `GraderBuilder.createFullGrader()`. */
  function CreateFullGrader(): Chain {
    Decorated(Decorated(Decorated(Basic, FactoryPattern), SingletonPattern), IntegrationTests)
  }

  /** The full chain wraps the basic grader in the factory, singleton and
      integration decorators, in that order. */
  lemma FullGraderExtras()
    ensures Extras(CreateFullGrader()) == [FactoryPattern, SingletonPattern, IntegrationTests]
  {
  }

  // FactoryCategory and SingletonCategory are the steps of FullGraderCategory.

  lemma FactoryCategory()
    ensures Category(Decorated(Basic, FactoryPattern)) == "Basic Validation + Factory Pattern"
  {
    assert Category(Decorated(Basic, FactoryPattern)) == "Basic Validation" + " + " + "Factory Pattern";
  }

  lemma SingletonCategory()
    ensures Category(Decorated(Decorated(Basic, FactoryPattern), SingletonPattern))
            == "Basic Validation + Factory Pattern + Singleton Pattern"
  {
    FactoryCategory();
    assert Category(Decorated(Decorated(Basic, FactoryPattern), SingletonPattern))
           == "Basic Validation + Factory Pattern" + " + " + "Singleton Pattern";
  }

  /** The category of the full chain names the three decorators in the
      order they wrap the basic grader. */
  lemma FullGraderCategory()
    ensures Category(CreateFullGrader())
            == "Basic Validation + Factory Pattern + Singleton Pattern + Integration Tests"
  {
    SingletonCategory();
    assert Category(CreateFullGrader())
           == "Basic Validation + Factory Pattern + Singleton Pattern" + " + " + "Integration Tests";
  }

  /** `buildGraderChain()`: the same chain as `createFullGrader()`. */
  method BuildGraderChain() returns (g: Chain)
    ensures g == CreateFullGrader()
    ensures Category(g) == "Basic Validation + Factory Pattern + Singleton Pattern + Integration Tests"
  {
    g := Basic;
    g := Decorated(g, FactoryPattern);
    g := Decorated(g, SingletonPattern);
    g := Decorated(g, IntegrationTests);
    FullGraderCategory();
  }

  // ---------------------------------------------------------------------
  // Grading

  /** Java's rendering of a possibly null string. */
  function Shown(s: Option<string>): string {
    if s.None? then "null" else s.value
  }

  /** A package name `BasicGrader` accepts: not null, and not blank after `trim()`. */
  predicate ValidPackage(studentPackage: Option<string>) {
    studentPackage.Some? && !JavaBlank(studentPackage.value)
  }

  /** The result of `BasicGrader.grade(studentPackage)`. */
  function BasicTally(studentPackage: Option<string>): Tally {
    var started := WithDetail(Fresh(), "Starting basic grading for package: " + Shown(studentPackage));
    if !ValidPackage(studentPackage) then WithTest(started, false, "Invalid package name provided")
    else WithDetail(WithTest(started, true, "Package name is valid"), "Package validation completed")
  }

  /** The basic grader records exactly one test, passed exactly for a valid
      package; it first logs the package, and after a pass logs that the
      validation completed. */
  lemma BasicTallyFacts(studentPackage: Option<string>)
    ensures var t := BasicTally(studentPackage);
            && Consistent(t)
            && t.totalTests == 1
            && (t.passed <==> ValidPackage(studentPackage))
            && (!t.passed ==> t.failureMessages == ["Invalid package name provided"])
            && (t.passed ==> t.successMessages == ["Package name is valid"]
                             && t.details[|t.details| - 1] == "[INFO] " + "Package validation completed")
            && t.details[0] == "[INFO] " + ("Starting basic grading for package: " + Shown(studentPackage))
  {
    var first := "Starting basic grading for package: " + Shown(studentPackage);
    var started := WithDetail(Fresh(), first);
    assert started.details == ["[INFO] " + first];
    if ValidPackage(studentPackage) {
      var tested := WithTest(started, true, "Package name is valid");
      assert BasicTally(studentPackage) == WithDetail(tested, "Package validation completed");
    } else {
      assert BasicTally(studentPackage) == WithTest(started, false, "Invalid package name provided");
    }
  }

  /** `BasicGrader.getGradingCategory()`. */
  lemma BasicCategoryIs()
    ensures Category(Basic) == "Basic Validation"
  {
  }

  /** `BasicGrader.grade(studentPackage)`. */
  method BasicGrade(studentPackage: Option<string>) returns (result: GradeResult)
    ensures fresh(result)
    ensures result.State() == BasicTally(studentPackage)
  {
    result := new GradeResult();
    result.AddDetail("Starting basic grading for package: " + Shown(studentPackage));
    if studentPackage.None? || JavaBlank(studentPackage.value) {
      result.AddTest(false, "Invalid package name provided");
    } else {
      result.AddTest(true, "Package name is valid");
      result.AddDetail("Package validation completed");
    }
  }

  /** A Java exception, by its simple class name and its message. */
  datatype Exception = Exception(name: string, message: string)

  /** What one decorator's `performAdditionalGrading` did. */
  datatype Additional = Completed(calls: seq<Call>) | Threw(exception: Exception)

  /** The outcome of `grade`: a result, or the exception that escaped. */
  datatype Graded = Graded(tally: Tally) | Raised(exception: Exception)

  /** `grade(studentPackage)` of a chain: the wrapped grader first, then the
      decorator's own checks on a new result, then `mergeResults`.  Nothing
      catches an exception on the way out. */
  function ChainGrade(g: Chain, studentPackage: Option<string>, additional: Extra -> Additional): Graded {
    match g
    case Basic => Graded(BasicTally(studentPackage))
    case Decorated(inner, e) =>
      match ChainGrade(inner, studentPackage, additional)
      case Raised(x) => Raised(x)
      case Graded(t) =>
        match additional(e)
        case Threw(x) => Raised(x)
        case Completed(calls) => Graded(Merged(t, Replay(Fresh(), calls)))
  }

  /** Some decorator's checks threw. */
  predicate SomeThrows(g: Chain, additional: Extra -> Additional) {
    exists i :: 0 <= i < |Extras(g)| && additional(Extras(g)[i]).Threw?
  }

  /** A chain yields a result exactly when no decorator's checks throw; the
      result is consistent and counts the basic test and every test the
      decorators recorded; it passes only if the package is valid; and once a
      decorator has merged, no "[INFO] " line is left in its log. */
  lemma {:induction false} ChainGradeFacts(g: Chain, studentPackage: Option<string>, additional: Extra -> Additional)
    ensures ChainGrade(g, studentPackage, additional).Graded? <==> !SomeThrows(g, additional)
    ensures var r := ChainGrade(g, studentPackage, additional);
            r.Graded? ==>
              && Consistent(r.tally)
              && r.tally.totalTests >= 1
              && (r.tally.passed ==> ValidPackage(studentPackage))
              && (g.Decorated? ==> forall i :: 0 <= i < |r.tally.details| ==> !StartsWith(r.tally.details[i], "[INFO] "))
  {
    match g
    case Basic =>
      BasicTallyFacts(studentPackage);
    case Decorated(inner, e) =>
      ChainGradeFacts(inner, studentPackage, additional);
      var xs := Extras(g);
      assert xs == Extras(inner) + [e];
      if SomeThrows(inner, additional) {
        var i :| 0 <= i < |Extras(inner)| && additional(Extras(inner)[i]).Threw?;
        assert xs[i] == Extras(inner)[i];
      }
      if SomeThrows(g, additional) && !additional(e).Threw? {
        var i :| 0 <= i < |xs| && additional(xs[i]).Threw?;
        assert i < |Extras(inner)| && xs[i] == Extras(inner)[i];
      }
      if !SomeThrows(g, additional) {
        assert additional(xs[|xs| - 1]).Threw? == additional(e).Threw?;
      }
      match ChainGrade(inner, studentPackage, additional)
      case Raised(_) =>
      case Graded(t) =>
        match additional(e)
        case Threw(_) =>
        case Completed(calls) =>
          FreshConsistent();
          ReplayConsistent(Fresh(), calls);
          MergedSums(t, Replay(Fresh(), calls));
          MergedDropsInfo(t, Replay(Fresh(), calls));
  }

  /** What a `grade` call returns: a new result, or the exception it threw. */
  datatype Outcome = Done(result: GradeResult) | Thrown(exception: Exception)

  /** `performAdditionalGrading` of a decorator: the calls it makes on a new
      result, one by one, or the exception it throws. */
  method PerformAdditionalGrading(e: Extra, additional: Extra -> Additional) returns (o: Outcome)
    ensures additional(e).Threw? <==> o.Thrown?
    ensures o.Thrown? ==> o.exception == additional(e).exception
    ensures o.Done? ==> fresh(o.result) && o.result.State() == Replay(Fresh(), additional(e).calls)
  {
    match additional(e)
    case Threw(x) =>
      o := Thrown(x);
    case Completed(calls) =>
      var result := new GradeResult();
      for i := 0 to |calls|
        invariant result.State() == Replay(Fresh(), calls[..i])
      {
        assert calls[..i + 1][..i] == calls[..i];
        match calls[i]
        case Test(p, m) => result.AddTest(p, m);
        case Detail(d) => result.AddDetail(d);
      }
      assert calls[..|calls|] == calls;
      o := Done(result);
  }

  /** `grade(studentPackage)` on the chain g. */
  method Grade(g: Chain, studentPackage: Option<string>, additional: Extra -> Additional) returns (o: Outcome)
    ensures o.Done? <==> ChainGrade(g, studentPackage, additional).Graded?
    ensures o.Thrown? ==> o.exception == ChainGrade(g, studentPackage, additional).exception
    ensures o.Done? ==> fresh(o.result) && o.result.State() == ChainGrade(g, studentPackage, additional).tally
    decreases g
  {
    match g
    case Basic =>
      var result := BasicGrade(studentPackage);
      o := Done(result);
    case Decorated(inner, e) =>
      var wrapped := Grade(inner, studentPackage, additional);
      if wrapped.Thrown? {
        return wrapped;
      }
      var extra := PerformAdditionalGrading(e, additional);
      if extra.Thrown? {
        return extra;
      }
      var merged := MergeResults(wrapped.result, extra.result);
      o := Done(merged);
  }

  // ---------------------------------------------------------------------
  // Week1AutoGrader.main

  const DefaultStudentPackage := "com.orca.patterns"

  /** The arguments of `main`: the package, then the output directory. */
  method ParseArguments(args: seq<string>) returns (studentPackage: string, outputDirectory: Option<string>)
    ensures |args| == 0 ==> studentPackage == DefaultStudentPackage
    ensures |args| > 0 ==> studentPackage == args[0]
    ensures outputDirectory.Some? <==> |args| > 1
    ensures |args| > 1 ==> outputDirectory == Some(args[1])
  {
    studentPackage := DefaultStudentPackage;
    outputDirectory := None;
    if |args| > 0 {
      studentPackage := args[0];
    }
    if |args| > 1 {
      outputDirectory := Some(args[1]);
    }
  }

  /** The result `createFailFileForException` writes. */
  function ExceptionTally(x: Exception): Tally {
    var t := WithTest(Fresh(), false, "Grading failed due to exception: " + x.name);
    var t := WithTest(t, false, "Exception message: " + x.message);
    var t := WithDetail(t, "Exception occurred during grading process");
    var t := WithDetail(t, "This usually indicates missing classes or incorrect package structure");
    WithDetail(t, "Please ensure all required classes exist in the correct package")
  }

  /** The exception result fails, with its two failed tests naming the
      exception, so it goes to the fail marker. */
  lemma ExceptionTallyFails(x: Exception)
    ensures var t := ExceptionTally(x);
            && Consistent(t) && !t.passed
            && t.totalTests == 2 && t.passedTests == 0
            && t.failureMessages == ["Grading failed due to exception: " + x.name, "Exception message: " + x.message]
            && FileName(t.passed) == FailFile
  {
  }

  /** The result `createFailFileForException` builds. */
  method ExceptionResult(x: Exception) returns (failResult: GradeResult)
    ensures fresh(failResult)
    ensures failResult.State() == ExceptionTally(x)
  {
    failResult := new GradeResult();
    failResult.AddTest(false, "Grading failed due to exception: " + x.name);
    failResult.AddTest(false, "Exception message: " + x.message);
    failResult.AddDetail("Exception occurred during grading process");
    failResult.AddDetail("This usually indicates missing classes or incorrect package structure");
    failResult.AddDetail("Please ensure all required classes exist in the correct package");
  }

  /** `createFailFileForException(exception, outputDirectory)`; returns false
      where the Java method throws an IOException. */
  method CreateFailFileForException(fs: Fs, x: Exception, outputDirectory: Option<string>) returns (written: bool)
    modifies fs
    ensures written <==> Writable(old(fs.files), OutputDir(outputDirectory))
    ensures fs.files == WriteResult(old(fs.files), ExceptionTally(x), outputDirectory, old(fs.clock))
    ensures fs.clock == old(fs.clock)
  {
    var failResult := ExceptionResult(x);
    written := GenerateResultFile(fs, failResult, outputDirectory);
  }

  /** The exception `generateResultFile` throws when the directory cannot
      hold the file; its message is not modelled. */
  const WriteFailure := Exception("IOException", "")

  /** The files and the exit status once `main` has a result: the result
      file is written and the exit status follows the result; when the file
      cannot be written, the handler tries to write the fail file there, which
      fails the same way, and the exit status is 1. */
  function Reported(files: Files, clock: int, t: Tally, outputDirectory: Option<string>): (Files, int) {
    var cleaned := WriteResult(files, t, outputDirectory, clock);
    if Writable(files, OutputDir(outputDirectory)) then (cleaned, if t.passed then 0 else 1)
    else (WriteResult(cleaned, ExceptionTally(WriteFailure), outputDirectory, clock), 1)
  }

  /** The files and the exit status once the chain has graded or thrown:
      report the result, or write the fail file for the exception. */
  function Finished(files: Files, clock: int, r: Graded, outputDirectory: Option<string>): (Files, int) {
    match r
    case Raised(x) => (WriteResult(files, ExceptionTally(x), outputDirectory, clock), 1)
    case Graded(t) => Reported(files, clock, t, outputDirectory)
  }

  /** The files and the exit status after `main(args)`, when the decorators'
      checks behave as `additional` says. */
  function AutoGraderRun(files: Files, clock: int, args: seq<string>, additional: Extra -> Additional): (Files, int) {
    var studentPackage := if |args| > 0 then args[0] else DefaultStudentPackage;
    var outputDirectory := if |args| > 1 then Some(args[1]) else None;
    Finished(files, clock, ChainGrade(CreateFullGrader(), Some(studentPackage), additional), outputDirectory)
  }

  /** The body of `main`'s `try` after grading. */
  method ReportResult(fs: Fs, result: GradeResult, outputDirectory: Option<string>) returns (exitCode: int)
    modifies fs
    ensures (fs.files, exitCode) == Reported(old(fs.files), old(fs.clock), result.State(), outputDirectory)
  {
    var written := GenerateResultFile(fs, result, outputDirectory);
    if written {
      var _ := PrintSummary(result);
      exitCode := if result.passed then 0 else 1;
    } else {
      var _ := CreateFailFileForException(fs, WriteFailure, outputDirectory);
      exitCode := 1;
    }
  }

  /** The `try` of `main` and its handler, with the chain built. */
  method GradeAndReport(fs: Fs, g: Chain, studentPackage: string, outputDirectory: Option<string>,
                        additional: Extra -> Additional) returns (exitCode: int)
    modifies fs
    ensures (fs.files, exitCode)
            == Finished(old(fs.files), old(fs.clock), ChainGrade(g, Some(studentPackage), additional), outputDirectory)
  {
    var outcome := Grade(g, Some(studentPackage), additional);
    match outcome
    case Thrown(x) =>
      var _ := CreateFailFileForException(fs, x, outputDirectory);
      exitCode := 1;
    case Done(result) =>
      exitCode := ReportResult(fs, result, outputDirectory);
  }

  /** `main(args)`. */
  method RunAutoGrader(fs: Fs, args: seq<string>, additional: Extra -> Additional) returns (exitCode: int)
    modifies fs
    ensures (fs.files, exitCode) == AutoGraderRun(old(fs.files), old(fs.clock), args, additional)
  {
    var studentPackage, outputDirectory := ParseArguments(args);
    var grader := BuildGraderChain();
    exitCode := GradeAndReport(fs, grader, studentPackage, outputDirectory, additional);
  }

  /** Once there is a result, the exit status is 0 exactly when it passed and
      its file could be written; when the directory can hold the file,
      exactly one marker is left there, the pass marker exactly on exit 0;
      when it cannot, neither marker is left. */
  lemma ReportedOutcome(files: Files, clock: int, t: Tally, outputDirectory: Option<string>)
    ensures var (after, code) := Reported(files, clock, t, outputDirectory);
            var dir := OutputDir(outputDirectory);
            && (code == 0 || code == 1)
            && (code == 0 <==> t.passed && Writable(files, dir))
            && (Writable(files, dir) ==> (dir + [PassFile] in after <==> code == 0)
                                         && (dir + [FailFile] in after <==> code == 1))
            && (!Writable(files, dir) ==> dir + [PassFile] !in after && dir + [FailFile] !in after)
  {
    WriteResultMarkers(files, t, outputDirectory, clock);
    var cleaned := WriteResult(files, t, outputDirectory, clock);
    WriteResultMarkers(cleaned, ExceptionTally(WriteFailure), outputDirectory, clock);
  }

  /** After an exception from the chain the exit status is 1 and the fail
      marker is written exactly when the directory can hold it. */
  lemma RaisedOutcome(files: Files, clock: int, x: Exception, outputDirectory: Option<string>)
    ensures var after := WriteResult(files, ExceptionTally(x), outputDirectory, clock);
            var dir := OutputDir(outputDirectory);
            && dir + [PassFile] !in after
            && (dir + [FailFile] in after <==> Writable(files, dir))
  {
    ExceptionTallyFails(x);
    WriteResultMarkers(files, ExceptionTally(x), outputDirectory, clock);
  }

  /** Whatever the chain did, the exit status is 0 exactly when it graded,
      the result passed and its file could be written; the markers are as
      `ReportedOutcome` says, and after an exception the fail marker is
      written when the directory can hold it. */
  lemma FinishedOutcome(files: Files, clock: int, r: Graded, outputDirectory: Option<string>)
    ensures var (after, code) := Finished(files, clock, r, outputDirectory);
            var dir := OutputDir(outputDirectory);
            && (code == 0 || code == 1)
            && (code == 0 <==> r.Graded? && r.tally.passed && Writable(files, dir))
            && (Writable(files, dir) ==> (dir + [PassFile] in after <==> code == 0)
                                         && (dir + [FailFile] in after <==> code == 1))
            && (!Writable(files, dir) ==> dir + [PassFile] !in after && dir + [FailFile] !in after)
  {
    match r
    case Raised(x) =>
      RaisedOutcome(files, clock, x, outputDirectory);
    case Graded(t) =>
      ReportedOutcome(files, clock, t, outputDirectory);
  }

  /** `main` exits 0 exactly when the full chain ran, the result passed and
      its file could be written, with the markers `FinishedOutcome` states. */
  lemma AutoGraderOutcome(files: Files, clock: int, args: seq<string>, additional: Extra -> Additional)
    ensures var (after, code) := AutoGraderRun(files, clock, args, additional);
            var outputDirectory := if |args| > 1 then Some(args[1]) else None;
            var dir := OutputDir(outputDirectory);
            var studentPackage := if |args| > 0 then args[0] else DefaultStudentPackage;
            var r := ChainGrade(CreateFullGrader(), Some(studentPackage), additional);
            && (code == 0 || code == 1)
            && (code == 0 <==> r.Graded? && r.tally.passed && Writable(files, dir))
            && (Writable(files, dir) ==> (dir + [PassFile] in after <==> code == 0)
                                         && (dir + [FailFile] in after <==> code == 1))
            && (!Writable(files, dir) ==> dir + [PassFile] !in after && dir + [FailFile] !in after)
  {
    var outputDirectory := if |args| > 1 then Some(args[1]) else None;
    var studentPackage := if |args| > 0 then args[0] else DefaultStudentPackage;
    FinishedOutcome(files, clock, ChainGrade(CreateFullGrader(), Some(studentPackage), additional), outputDirectory);
  }
}
