/** grading/week01/ResultFileGenerator.java: the report the week-1 auto-grader
    writes as `results.pass` or `results.fail`, the improvement suggestions
    derived from the failure messages, and the console summary.  A report is
    kept as its lines; the file holds each line followed by a newline. */
module Week01Report {
  import opened Wrappers
  import opened Strings
  import opened FileSystem
  import opened Week01Results

  const PassFile := "results.pass"
  const FailFile := "results.fail"

  const Heavy := "====================================="
  const Rule := "-------------------------------------"
  const Wide := "=================================================="   // `"=".repeat(50)`

  /** The marker the result goes to. */
  function FileName(passed: bool): (r: string)
    ensures r == PassFile <==> passed
    ensures r == FailFile <==> !passed
  {
    if passed then PassFile else FailFile
  }

  /** The directory of the result file: a missing or blank argument means
      the working directory, the empty path. */
  function OutputDir(outputDirectory: Option<string>): (r: Path)
    ensures r == [] <==> outputDirectory.None? || JavaBlank(outputDirectory.value)
    ensures r != [] ==> r == [outputDirectory.value]
  {
    if outputDirectory.Some? && !JavaBlank(outputDirectory.value) then [outputDirectory.value] else []
  }

  /** `Files.newBufferedWriter` can create a file in dir: dir is the working
      directory or an existing directory. */
  predicate Writable(files: Files, dir: Path) {
    dir == [] || (dir in files && files[dir].Dir?)
  }

  /** Each message with the bullet in front. */
  function Prefixed(bullet: string, msgs: seq<string>): (r: seq<string>)
    ensures |r| == |msgs|
  {
    seq(|msgs|, i requires 0 <= i < |msgs| => bullet + msgs[i])
  }

  function Min(a: int, b: int): int {
    if a <= b then a else b
  }

  /** The first `cap` failures as bullets, then one line with the number of
      those left over, when there are any. */
  function FailureDigest(failures: seq<string>, cap: nat, tail: string): seq<string> {
    var shown := Min(|failures|, cap);
    Prefixed("• ", failures[..shown])
    + if |failures| > cap then ["• ... and " + IntToString(|failures| - cap) + tail] else []
  }

  /** The digest shows min(n, cap) failures, in order, and announces the rest
      exactly when there are more than cap of them. */
  lemma DigestShape(failures: seq<string>, cap: nat, tail: string)
    ensures var d := FailureDigest(failures, cap, tail);
            && |d| == Min(|failures|, cap) + (if |failures| > cap then 1 else 0)
            && (forall i :: 0 <= i < Min(|failures|, cap) ==> d[i] == "• " + failures[i])
            && (|failures| > cap ==> d[cap] == "• ... and " + IntToString(|failures| - cap) + tail)
            && (|failures| <= cap ==> d == Prefixed("• ", failures))
  {
    var shown := Min(|failures|, cap);
    var d := FailureDigest(failures, cap, tail);
    forall i | 0 <= i < shown
      ensures d[i] == "• " + failures[i]
    {
      assert d[i] == Prefixed("• ", failures[..shown])[i];
    }
    if |failures| <= cap {
      assert failures[..shown] == failures;
    }
  }

  // ---------------------------------------------------------------------
  // Improvement suggestions

  /** The suggestions the report can make: eight tied to keywords of the
      failure messages, three given when none of those applies. */
  datatype Suggestion =
    | ProcessorInterface | FactoryMethod | PrivateConstructor | GetInstance
    | ThreadSafety | ConcreteProcessors | SeparateConcerns | ErrorHandling
    | ReviewBadExample | StudyPatterns | FollowSolid

  /** Whether a keyword suggestion applies to a lower-cased failure message;
      the three defaults never do. */
  predicate Fires(s: Suggestion, lower: string) {
    match s
    case ProcessorInterface => Contains(lower, "processor interface") || Contains(lower, "interface")
    case FactoryMethod => Contains(lower, "factory") && Contains(lower, "method")
    case PrivateConstructor => Contains(lower, "private constructor")
    case GetInstance => Contains(lower, "getinstance")
    case ThreadSafety => Contains(lower, "thread") && Contains(lower, "safe")
    case ConcreteProcessors => Contains(lower, "implementation") && Contains(lower, "3")
    case SeparateConcerns => Contains(lower, "business logic")
    case ErrorHandling => Contains(lower, "unknown type")
    case _ => false
  }

  /** The line of a suggestion. */
  function Text(s: Suggestion): string {
    match s
    case ProcessorInterface => "• Create a Processor interface with common methods (e.g., process(), getType())"
    case FactoryMethod => "• Implement a factory method that creates processors based on type parameters"
    case PrivateConstructor => "• Make NodeManager constructor private to prevent external instantiation"
    case GetInstance => "• Add a static getInstance() method that returns the singleton instance"
    case ThreadSafety => "• Implement thread-safe singleton using double-checked locking pattern"
    case ConcreteProcessors => "• Create at least 3 concrete Processor implementations (Data, Compute, IO)"
    case SeparateConcerns => "• Separate singleton management logic from business operations"
    case ErrorHandling => "• Add proper error handling for unsupported processor types"
    case ReviewBadExample => "• Review the Week1_CreationalPatterns_Bad.java file to understand the problems"
    case StudyPatterns => "• Study the design patterns documentation"
    case FollowSolid => "• Ensure your implementation follows SOLID principles"
  }

  /** The suggestions of a report none of whose failures matches a keyword. */
  const Defaults: seq<Suggestion> := [ReviewBadExample, StudyPatterns, FollowSolid]

  /** s, when it applies to the lower-cased failure. */
  function Say(s: Suggestion, lower: string): seq<Suggestion> {
    if Fires(s, lower) then [s] else []
  }

  /** The suggestions so far, followed by those one lower-cased failure
      adds, in the order of the tests. */
  function Step(chosen: seq<Suggestion>, lower: string): seq<Suggestion> {
    chosen + Say(ProcessorInterface, lower) + Say(FactoryMethod, lower) + Say(PrivateConstructor, lower)
    + Say(GetInstance, lower) + Say(ThreadSafety, lower) + Say(ConcreteProcessors, lower)
    + Say(SeparateConcerns, lower) + Say(ErrorHandling, lower)
  }

  /** The suggestions gathered over the failures, in order. */
  function Collected(failures: seq<string>): seq<Suggestion>
    decreases |failures|
  {
    if failures == [] then []
    else Step(Collected(failures[..|failures| - 1]), Lower(failures[|failures| - 1]))
  }

  /** `generateImprovementSuggestions`: the gathered suggestions, or the
      defaults when there are none. */
  function Chosen(failures: seq<string>): seq<Suggestion> {
    var c := Collected(failures);
    if c == [] then Defaults else c
  }

  /** The lines of the suggestions, in order. */
  function Texts(ss: seq<Suggestion>): (r: seq<string>)
    ensures |r| == |ss|
  {
    if ss == [] then [] else Texts(ss[..|ss| - 1]) + [Text(ss[|ss| - 1])]
  }

  lemma {:induction false} TextsAt(ss: seq<Suggestion>, k: nat)
    requires k < |ss|
    ensures Texts(ss)[k] == Text(ss[k])
    decreases |ss|
  {
    if k < |ss| - 1 {
      var init := ss[..|ss| - 1];
      TextsAt(init, k);
      assert Texts(ss)[k] == Texts(init)[k];
    }
  }

  /** One failure adds exactly the suggestions that apply to it. */
  lemma StepMeaning(chosen: seq<Suggestion>, lower: string, s: Suggestion)
    ensures s in Step(chosen, lower) <==> s in chosen || Fires(s, lower)
  {
  }

  /** Some failure triggers s exactly when one before the last does or the
      last one does. */
  lemma TriggeredSplit(failures: seq<string>, s: Suggestion)
    requires failures != []
    ensures var init := failures[..|failures| - 1];
            (exists i :: 0 <= i < |failures| && Fires(s, Lower(failures[i])))
            <==> (exists i :: 0 <= i < |init| && Fires(s, Lower(init[i])))
                 || Fires(s, Lower(failures[|failures| - 1]))
  {
    var init := failures[..|failures| - 1];
    if exists i :: 0 <= i < |failures| && Fires(s, Lower(failures[i])) {
      var i :| 0 <= i < |failures| && Fires(s, Lower(failures[i]));
      if i < |init| {
        assert init[i] == failures[i];
      }
    }
    if exists i :: 0 <= i < |init| && Fires(s, Lower(init[i])) {
      var i :| 0 <= i < |init| && Fires(s, Lower(init[i]));
      assert failures[i] == init[i];
    }
  }

  /** A suggestion is gathered exactly when some failure triggers it. */
  lemma {:induction false} CollectedMeaning(failures: seq<string>, s: Suggestion)
    ensures s in Collected(failures) <==> exists i :: 0 <= i < |failures| && Fires(s, Lower(failures[i]))
    decreases |failures|
  {
    if failures != [] {
      var init := failures[..|failures| - 1];
      CollectedMeaning(init, s);
      StepMeaning(Collected(init), Lower(failures[|failures| - 1]), s);
      TriggeredSplit(failures, s);
    }
  }

  /** Each keyword suggestion is made exactly when some lower-cased failure
      matches its keywords; the defaults are made exactly when no failure
      matches any. */
  lemma ChosenMeaning(failures: seq<string>, s: Suggestion)
    ensures !s.ReviewBadExample? && !s.StudyPatterns? && !s.FollowSolid? ==>
              (s in Chosen(failures) <==> exists i :: 0 <= i < |failures| && Fires(s, Lower(failures[i])))
    ensures Chosen(failures) == Defaults <==>
              forall i, m :: 0 <= i < |failures| ==> !Fires(m, Lower(failures[i]))
  {
    CollectedMeaning(failures, s);
    var c := Collected(failures);
    if c != [] {
      CollectedMeaning(failures, c[0]);
      var i :| 0 <= i < |failures| && Fires(c[0], Lower(failures[i]));
      assert c[0] != ReviewBadExample;
    } else {
      forall i, m | 0 <= i < |failures|
        ensures !Fires(m, Lower(failures[i]))
      {
        CollectedMeaning(failures, m);
      }
    }
  }

  /** One keyword test of `generateImprovementSuggestions`: appends the line
      of s when s applies to the lower-cased failure. */
  method Consider(lines: seq<string>, ghost chosen: seq<Suggestion>, lower: string, s: Suggestion)
    returns (r: seq<string>, ghost after: seq<Suggestion>)
    requires lines == Texts(chosen)
    ensures r == if Fires(s, lower) then lines + [Text(s)] else lines
    ensures after == chosen + Say(s, lower)
    ensures r == Texts(after)
  {
    r, after := lines, chosen + Say(s, lower);
    if Fires(s, lower) {
      assert after[..|chosen|] == chosen;
      r := r + [Text(s)];
    } else {
      assert after == chosen;
    }
  }

  /** The "processor interface" test is subsumed: the first suggestion is
      triggered exactly when the message mentions "interface". */
  lemma InterfaceAdvice(lower: string)
    ensures Fires(ProcessorInterface, lower) <==> Contains(lower, "interface")
  {
    if Contains(lower, "processor interface") {
      ContainsInfix("processor ", "interface", "");
      assert "processor " + "interface" + "" == "processor interface";
      ContainsTransitive(lower, "processor interface", "interface");
    }
  }

  // ---------------------------------------------------------------------
  // The report

  function StatusWord(passed: bool): string {
    if passed then "PASS" else "FAIL"
  }

  function Header(t: Tally): seq<string> {
    [Heavy, "Week 1 Creational Patterns Grading Result", Heavy,
     "Status: " + StatusWord(t.passed),
     "Tests: " + IntToString(t.passedTests) + "/" + IntToString(t.totalTests) + " passed",
     ""]
  }

  const Congratulations: seq<string> := [
    "\U{1F389} CONGRATULATIONS! \U{1F389}",
    "Your implementation successfully demonstrates proper use of:",
    "• Factory Pattern",
    "• Singleton Pattern",
    "• Object-Oriented Design Principles",
    ""]

  const ImprovementsNeeded: seq<string> := [
    "❌ IMPROVEMENTS NEEDED",
    "Your implementation needs attention in the following areas:"]

  const MoreInReport := " more issues (see details below)"

  function Summary(t: Tally): seq<string> {
    if t.passed then Congratulations
    else ImprovementsNeeded + FailureDigest(t.failureMessages, 5, MoreInReport) + [""]
  }

  /** A titled list of messages, left out when there are none. */
  function Section(title: string, bullet: string, msgs: seq<string>): seq<string> {
    if msgs == [] then [] else [title, Rule] + Prefixed(bullet, msgs) + [""]
  }

  const SuccessTitle := "✅ SUCCESSFUL IMPLEMENTATIONS:"
  const IssuesTitle := "❌ ISSUES TO ADDRESS:"
  const SuggestionsTitle := "\U{1F4A1} IMPROVEMENT SUGGESTIONS:"

  function Log(t: Tally): seq<string> {
    ["DETAILED GRADING LOG:", Rule] + t.details + [""]
  }

  /** The suggestions section, in a failed report only. */
  function Improvements(passed: bool, suggestions: seq<string>): seq<string> {
    if passed then [] else [SuggestionsTitle, Rule] + suggestions + [""]
  }

  const Closing: seq<string> := [
    "\U{1F4DA} LEARNING RESOURCES:",
    Rule,
    "• Factory Pattern: https://refactoring.guru/design-patterns/factory-method",
    "• Singleton Pattern: https://refactoring.guru/design-patterns/singleton",
    "• SOLID Principles: https://en.wikipedia.org/wiki/SOLID",
    "• Java Design Patterns: https://java-design-patterns.com/",
    "",
    Heavy, "End of Grading Report", Heavy]

  /** The header and the summary. */
  function Opening(t: Tally): seq<string> {
    Header(t) + Summary(t)
  }

  /** Everything before the suggestions. */
  function Front(t: Tally): seq<string> {
    Opening(t)
    + Section(SuccessTitle, "✓ ", t.successMessages)
    + Section(IssuesTitle, "✗ ", t.failureMessages)
    + Log(t)
  }

  /** The report, given the lines of its suggestions. */
  function Report(t: Tally, suggestions: seq<string>): seq<string> {
    Front(t) + Improvements(t.passed, suggestions) + Closing
  }

  /** `generateFileContent`, without the timestamp and score lines. */
  function ReportLines(t: Tally): seq<string> {
    Report(t, Texts(Chosen(t.failureMessages)))
  }

  /** The status line tells pass from fail, and a failed result's summary
      opens with the digest of its failures. */
  lemma OpeningShape(t: Tally)
    ensures var o := Opening(t);
            && o[3] == (if t.passed then "Status: PASS" else "Status: FAIL")
            && (!t.passed ==> o[8..8 + |FailureDigest(t.failureMessages, 5, MoreInReport)|]
                                == FailureDigest(t.failureMessages, 5, MoreInReport))
  {
    if !t.passed {
      var d := FailureDigest(t.failureMessages, 5, MoreInReport);
      assert Summary(t) == ImprovementsNeeded + d + [""];
      assert Summary(t)[2..2 + |d|] == d;
    }
  }

  /** Concatenation regrouped: the first piece, then the rest. */
  lemma AppendAssociates<T>(a: seq<T>, b: seq<T>, c: seq<T>, d: seq<T>, e: seq<T>, f: seq<T>)
    ensures a + b + c + d + e + f == a + (b + c + d + e + f)
  {
  }

  /** The report begins with its opening. */
  lemma ReportBegins(t: Tally, suggestions: seq<string>)
    ensures |Opening(t)| <= |Report(t, suggestions)|
    ensures Report(t, suggestions)[..|Opening(t)|] == Opening(t)
  {
    var o := Opening(t);
    var rest := Section(SuccessTitle, "✓ ", t.successMessages) + Section(IssuesTitle, "✗ ", t.failureMessages)
                + Log(t) + Improvements(t.passed, suggestions) + Closing;
    AppendAssociates(o, Section(SuccessTitle, "✓ ", t.successMessages), Section(IssuesTitle, "✗ ", t.failureMessages),
                     Log(t), Improvements(t.passed, suggestions), Closing);
    assert Report(t, suggestions) == o + rest;
  }

  /** The status line tells pass from fail, and a failed report opens with
      the digest of its failures. */
  lemma ReportOpening(t: Tally, suggestions: seq<string>)
    ensures var r := Report(t, suggestions);
            && r[3] == (if t.passed then "Status: PASS" else "Status: FAIL")
            && (!t.passed ==> r[8..8 + |FailureDigest(t.failureMessages, 5, MoreInReport)|]
                                == FailureDigest(t.failureMessages, 5, MoreInReport))
  {
    OpeningShape(t);
    ReportBegins(t, suggestions);
    var r := Report(t, suggestions);
    var o := Opening(t);
    assert r[3] == r[..|o|][3];
    if !t.passed {
      var d := FailureDigest(t.failureMessages, 5, MoreInReport);
      assert r[8..8 + |d|] == r[..|o|][8..8 + |d|];
    }
  }

  /** Every success, every failure and every log entry appears in the report. */
  lemma ReportListsAll(t: Tally, suggestions: seq<string>)
    ensures var r := Report(t, suggestions);
            && (forall i :: 0 <= i < |t.successMessages| ==> "✓ " + t.successMessages[i] in r)
            && (forall i :: 0 <= i < |t.failureMessages| ==> "✗ " + t.failureMessages[i] in r)
            && (forall i :: 0 <= i < |t.details| ==> t.details[i] in r)
  {
    forall i | 0 <= i < |t.successMessages|
      ensures "✓ " + t.successMessages[i] in Section(SuccessTitle, "✓ ", t.successMessages)
    {
      assert Section(SuccessTitle, "✓ ", t.successMessages)[2 + i] == "✓ " + t.successMessages[i];
    }
    forall i | 0 <= i < |t.failureMessages|
      ensures "✗ " + t.failureMessages[i] in Section(IssuesTitle, "✗ ", t.failureMessages)
    {
      assert Section(IssuesTitle, "✗ ", t.failureMessages)[2 + i] == "✗ " + t.failureMessages[i];
    }
    forall i | 0 <= i < |t.details|
      ensures t.details[i] in Log(t)
    {
      assert Log(t)[2 + i] == t.details[i];
    }
  }

  /** A failed report carries its suggestions under their title just before
      the learning resources, with which every report ends. */
  lemma ReportClosing(t: Tally, suggestions: seq<string>)
    ensures var r := Report(t, suggestions);
            && r[|r| - |Closing|..] == Closing
            && (!t.passed ==>
                  var at := |r| - |Closing| - 1 - |suggestions|;
                  && r[at - 2] == SuggestionsTitle
                  && r[at..at + |suggestions|] == suggestions)
  {
    var f := Front(t);
    var m := Improvements(t.passed, suggestions);
    ThreeParts(f, m, Closing);
    if !t.passed {
      ThreeParts([SuggestionsTitle, Rule], suggestions, [""]);
    }
  }

  /** Where the middle and last of three joined sequences sit. */
  lemma ThreeParts(f: seq<string>, m: seq<string>, c: seq<string>)
    ensures (f + m + c)[|f + m + c| - |c|..] == c
    ensures (f + m + c)[|f|..|f| + |m|] == m
    ensures |m| > 0 ==> (f + m + c)[|f|] == m[0]
  {
    assert (f + m + c)[|f| + |m|..] == c;
  }

  /** In a failed report every suggestion made appears as its line. */
  lemma ReportSuggests(t: Tally, s: Suggestion)
    requires !t.passed && s in Chosen(t.failureMessages)
    ensures Text(s) in ReportLines(t)
  {
    var lines := Texts(Chosen(t.failureMessages));
    var k :| 0 <= k < |Chosen(t.failureMessages)| && Chosen(t.failureMessages)[k] == s;
    TextsAt(Chosen(t.failureMessages), k);
    assert Text(s) in lines;
    assert Text(s) in Improvements(t.passed, lines);
  }

  /** The files after `generateResultFile`: both markers of the directory are
      deleted, then the chosen one is written, when the directory can hold it. */
  function WriteResult(files: Files, t: Tally, outputDirectory: Option<string>, stamp: int): Files {
    var dir := OutputDir(outputDirectory);
    var cleaned := files - {dir + [PassFile]} - {dir + [FailFile]};
    if Writable(files, dir) then cleaned[dir + [FileName(t.passed)] := File(Lines(ReportLines(t)), stamp)]
    else cleaned
  }

  /** Afterwards exactly the chosen marker is in the directory (none when it
      cannot be written), it holds the report, and no other path changes. */
  lemma WriteResultMarkers(files: Files, t: Tally, outputDirectory: Option<string>, stamp: int)
    ensures var dir := OutputDir(outputDirectory);
            var after := WriteResult(files, t, outputDirectory, stamp);
            && (dir + [PassFile] in after <==> Writable(files, dir) && t.passed)
            && (dir + [FailFile] in after <==> Writable(files, dir) && !t.passed)
            && (Writable(files, dir) ==> after[dir + [FileName(t.passed)]] == File(Lines(ReportLines(t)), stamp))
            && forall p :: p != dir + [PassFile] && p != dir + [FailFile] ==>
                 (p in after <==> p in files) && (p in files ==> after[p] == files[p])
  {
    var dir := OutputDir(outputDirectory);
    assert (dir + [PassFile])[|dir|] != (dir + [FailFile])[|dir|];
  }

  /** Appends the messages with the bullet, one line each. */
  method AppendBullets(content: seq<string>, bullet: string, msgs: seq<string>) returns (r: seq<string>)
    ensures r == content + Prefixed(bullet, msgs)
  {
    r := content;
    for i := 0 to |msgs|
      invariant r == content + Prefixed(bullet, msgs[..i])
    {
      assert Prefixed(bullet, msgs[..i + 1]) == Prefixed(bullet, msgs[..i]) + [bullet + msgs[i]];
      r := r + [bullet + msgs[i]];
    }
    assert msgs[..|msgs|] == msgs;
  }

  /** Appends the digest of the failures: the first `cap` as bullets, then
      the count of the rest when there are more. */
  method AppendDigest(content: seq<string>, failures: seq<string>, cap: nat, tail: string) returns (r: seq<string>)
    ensures r == content + FailureDigest(failures, cap, tail)
  {
    r := AppendBullets(content, "• ", failures[..Min(|failures|, cap)]);
    if |failures| > cap {
      r := r + ["• ... and " + IntToString(|failures| - cap) + tail];
    }
  }

  /** The eight keyword tests on one lower-cased failure, in order. */
  method ConsiderFailure(lines: seq<string>, ghost chosen: seq<Suggestion>, lower: string)
    returns (r: seq<string>, ghost after: seq<Suggestion>)
    requires lines == Texts(chosen)
    ensures after == Step(chosen, lower) && r == Texts(after)
  {
    r, after := Consider(lines, chosen, lower, ProcessorInterface);
    r, after := Consider(r, after, lower, FactoryMethod);
    r, after := Consider(r, after, lower, PrivateConstructor);
    r, after := Consider(r, after, lower, GetInstance);
    r, after := Consider(r, after, lower, ThreadSafety);
    r, after := Consider(r, after, lower, ConcreteProcessors);
    r, after := Consider(r, after, lower, SeparateConcerns);
    r, after := Consider(r, after, lower, ErrorHandling);
  }

  /** `generateImprovementSuggestions(result)`: the eight keyword tests for
      each failure in turn, then the defaults when none applied. */
  method GenerateImprovementSuggestions(result: GradeResult) returns (lines: seq<string>)
    ensures lines == Texts(Chosen(result.failureMessages))
  {
    var failures := result.failureMessages;
    lines := [];
    ghost var chosen: seq<Suggestion> := [];
    for i := 0 to |failures|
      invariant chosen == Collected(failures[..i])
      invariant lines == Texts(chosen)
    {
      lines, chosen := ConsiderFailure(lines, chosen, Lower(failures[i]));
      assert failures[..i + 1][..i] == failures[..i];
    }
    assert failures[..|failures|] == failures;
    if lines == [] {
      lines := [Text(ReviewBadExample), Text(StudyPatterns), Text(FollowSolid)];
    }
  }

  /** The title block and the status and test-count lines. */
  method WriteHeader(result: GradeResult) returns (content: seq<string>)
    ensures content == Header(result.State())
  {
    content := [Heavy, "Week 1 Creational Patterns Grading Result", Heavy];
    content := content + ["Status: " + (if result.passed then "PASS" else "FAIL")];
    content := content + ["Tests: " + IntToString(result.passedTests) + "/" + IntToString(result.totalTests) + " passed"];
    content := content + [""];
  }

  /** The congratulations, or the first five failures and the count of the
      rest. */
  method WriteSummary(content: seq<string>, result: GradeResult) returns (r: seq<string>)
    ensures r == content + Summary(result.State())
  {
    if result.passed {
      r := content + Congratulations;
    } else {
      r := content + ImprovementsNeeded;
      r := AppendDigest(r, result.failureMessages, 5, MoreInReport);
      r := r + [""];
    }
  }

  /** A titled list of messages, written only when there are any. */
  method WriteSection(content: seq<string>, title: string, bullet: string, msgs: seq<string>) returns (r: seq<string>)
    ensures r == content + Section(title, bullet, msgs)
  {
    r := content;
    if msgs != [] {
      r := r + [title, Rule];
      r := AppendBullets(r, bullet, msgs);
      r := r + [""];
    }
  }

  /** The detailed log: every detail line, verbatim. */
  method WriteLog(content: seq<string>, result: GradeResult) returns (r: seq<string>)
    ensures r == content + Log(result.State())
  {
    r := content + ["DETAILED GRADING LOG:", Rule];
    r := r + result.details;
    r := r + [""];
  }

  /** The suggestions, written for a failed result only. */
  method WriteImprovements(content: seq<string>, result: GradeResult) returns (r: seq<string>)
    ensures r == content + Improvements(result.passed, Texts(Chosen(result.failureMessages)))
  {
    r := content;
    if !result.passed {
      r := r + [SuggestionsTitle, Rule];
      var suggestions := GenerateImprovementSuggestions(result);
      r := r + suggestions;
      r := r + [""];
    }
  }

  /** `generateFileContent(result)`, without the timestamp and score lines. */
  method GenerateFileContent(result: GradeResult) returns (content: seq<string>)
    ensures content == ReportLines(result.State())
  {
    content := WriteHeader(result);
    content := WriteSummary(content, result);
    content := WriteSection(content, SuccessTitle, "✓ ", result.successMessages);
    content := WriteSection(content, IssuesTitle, "✗ ", result.failureMessages);
    content := WriteLog(content, result);
    content := WriteImprovements(content, result);
    content := content + Closing;
  }

  /** `generateResultFile(result, outputDirectory)`; returns false where the
      Java method throws because the directory cannot hold the file. */
  method GenerateResultFile(fs: Fs, result: GradeResult, outputDirectory: Option<string>) returns (written: bool)
    modifies fs
    ensures written <==> Writable(old(fs.files), OutputDir(outputDirectory))
    ensures fs.files == WriteResult(old(fs.files), result.State(), outputDirectory, old(fs.clock))
    ensures fs.clock == old(fs.clock)
  {
    var fileName := if result.passed then PassFile else FailFile;
    var dir: Path := [];
    if outputDirectory.Some? && !JavaBlank(outputDirectory.value) {
      dir := [outputDirectory.value];
    }
    written := Writable(fs.files, dir);
    // cleanupOldResultFiles
    fs.DeleteIfExists(dir + [PassFile]);
    fs.DeleteIfExists(dir + [FailFile]);
    var content := GenerateFileContent(result);
    if written {
      fs.Write(dir + [fileName], Lines(content));
    }
  }

  const MoreInSummary := " more issues"

  /** The banner, status and test-count lines of `printSummary`. */
  function SummaryHead(t: Tally): seq<string> {
    ["", Wide, "GRADING SUMMARY", Wide,
     "Status: " + (if t.passed then "✅ PASS" else "❌ FAIL"),
     "Tests: " + IntToString(t.passedTests) + "/" + IntToString(t.totalTests) + " passed"]
  }

  /** The key issues of a failed result: at most three, then the count of
      the rest. */
  function KeyIssues(t: Tally): seq<string> {
    if t.passed then [] else ["", "Key Issues:"] + FailureDigest(t.failureMessages, 3, MoreInSummary)
  }

  /** The console summary of `printSummary`, without the score line. */
  function SummaryLines(t: Tally): seq<string> {
    SummaryHead(t) + KeyIssues(t) + [Wide]
  }

  /** A failed summary names at most three failures, plus a line counting the
      rest exactly when there are more than three; a passed one names none. */
  lemma SummaryShape(t: Tally)
    ensures var s := SummaryLines(t);
            && (t.passed ==> |s| == 7)
            && (!t.passed ==>
                  && s[8..|s| - 1] == FailureDigest(t.failureMessages, 3, MoreInSummary)
                  && |s| == 9 + Min(|t.failureMessages|, 3) + (if |t.failureMessages| > 3 then 1 else 0))
  {
    DigestShape(t.failureMessages, 3, MoreInSummary);
  }

  /** The banner, status and test-count lines. */
  method PrintSummaryHead(result: GradeResult) returns (lines: seq<string>)
    ensures lines == SummaryHead(result.State())
  {
    lines := ["", Wide, "GRADING SUMMARY", Wide];
    lines := lines + ["Status: " + (if result.passed then "✅ PASS" else "❌ FAIL")];
    lines := lines + ["Tests: " + IntToString(result.passedTests) + "/" + IntToString(result.totalTests) + " passed"];
  }

  /** The key issues, printed for a failed result only. */
  method PrintKeyIssues(content: seq<string>, result: GradeResult) returns (lines: seq<string>)
    ensures lines == content + KeyIssues(result.State())
  {
    lines := content;
    if !result.passed {
      lines := lines + ["", "Key Issues:"];
      lines := AppendDigest(lines, result.failureMessages, 3, MoreInSummary);
    }
  }

  /** `printSummary(result)`: the lines it prints. */
  method PrintSummary(result: GradeResult) returns (lines: seq<string>)
    ensures lines == SummaryLines(result.State())
  {
    lines := PrintSummaryHead(result);
    lines := PrintKeyIssues(lines, result);
    lines := lines + [Wide];
  }
}
