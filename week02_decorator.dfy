/** grading/week02/GraderDecorator.java: the defaults the week-2 decorators
    inherit.  The constructor accepts any grader, null included; the default
    `grade` hands the wrapped grader's result back; the default category is a
    constant; `mergeResults` folds a previous result into a new one in place.
    The concrete week-2 graders (command, observer, integration) inspect the
    student's classes through reflection and are known here only by the
    result they return. */
module Week02Decorator {
  import opened Wrappers
  import opened Week02Results

  const BaseCategory := "Base Decorator"
  const PreviousFailed := "Previous grading step failed"

  /** A week-2 grader: one whose own `grade` returns the given result, or a
      decorator that keeps the inherited `grade` and `getGradingCategory`
      around a possibly null grader. */
  datatype Grader = Leaf(category: string, result: Record) | BaseDecorator(wrapped: Option<Grader>)

  /** `getGradingCategory`: the inherited one is "Base Decorator" whatever is
      wrapped. */
  function Category(g: Grader): string {
    match g
    case Leaf(c, _) => c
    case BaseDecorator(_) => BaseCategory
  }

  /** `grade(studentPackage)`: the inherited one calls the wrapped grader,
      which throws when that grader is null. */
  function Grade(g: Grader): Result<Record> {
    match g
    case Leaf(_, r) => Ok(r)
    case BaseDecorator(None) => Err("null grader")
    case BaseDecorator(Some(w)) => Grade(w)
  }

  /** The innermost grader of a stack of base decorators, if no link of
      the stack is null. */
  function Innermost(g: Grader): Option<Grader> {
    match g
    case Leaf(_, _) => Some(g)
    case BaseDecorator(None) => None
    case BaseDecorator(Some(w)) => Innermost(w)
  }

  /** Inherited `grade` adds nothing: any stack of base decorators returns
      exactly the result of its innermost grader, and fails exactly when
      some link is null. */
  lemma {:induction false} GradePassesThrough(g: Grader)
    ensures Grade(g).Ok? <==> Innermost(g).Some?
    ensures Innermost(g).Some? ==> Innermost(g).value.Leaf? && Grade(g).value == Innermost(g).value.result
  {
    match g
    case Leaf(_, _) =>
    case BaseDecorator(None) =>
    case BaseDecorator(Some(w)) =>
      GradePassesThrough(w);
  }

  /** A decorator around null can be built and named; only grading fails. */
  lemma NullAccepted()
    ensures Grade(BaseDecorator(None)).Err?
    ensures Category(BaseDecorator(None)) == BaseCategory
  {
  }

  /** The new result after `mergeResults(previous, newResult)`: the previous
      details appended in order, then one failed test when the previous
      result did not pass. */
  function Merged(previous: Record, newResult: Record): Record {
    var withDetails := newResult.(details := newResult.details + previous.details);
    if IsPassed(previous) then withDetails else Recorded(withDetails, Unscored(false, PreviousFailed))
  }

  /** The merged result keeps the new result's details followed by all the
      previous ones; its tests are the new result's, plus exactly one failed
      "Previous grading step failed" test when the previous result did not
      pass. */
  lemma MergedContents(previous: Record, newResult: Record)
    ensures var m := Merged(previous, newResult);
            && m.details == newResult.details + previous.details
            && (IsPassed(previous) ==>
                  m.testResults == newResult.testResults
                  && m.totalTests == newResult.totalTests && m.passedTests == newResult.passedTests)
            && (!IsPassed(previous) ==>
                  m.testResults == newResult.testResults + [TestResult(false, PreviousFailed, 0, 0)]
                  && m.totalTests == newResult.totalTests + 1 && m.passedTests == newResult.passedTests)
  {
  }

  /** On a consistent new result the merge keeps it consistent, and the
      merged result passes exactly when both inputs pass: a failed previous
      step always fails the merge. */
  lemma MergedPasses(previous: Record, newResult: Record)
    requires Consistent(newResult)
    ensures Consistent(Merged(previous, newResult))
    ensures IsPassed(Merged(previous, newResult)) <==> IsPassed(previous) && IsPassed(newResult)
  {
    var withDetails := newResult.(details := newResult.details + previous.details);
    if !IsPassed(previous) {
      RecordedKeepsConsistent(withDetails, Unscored(false, PreviousFailed));
    }
  }

  /** `mergeResults(previousResult, newResult)`: changes newResult and returns
      it.  The two may be the same object; the previous details are read into
      a copy before the first is appended. */
  method MergeResults(previousResult: GradeResult, newResult: GradeResult) returns (r: GradeResult)
    modifies newResult
    ensures r == newResult
    ensures newResult.State() == Merged(old(previousResult.State()), old(newResult.State()))
  {
    ghost var previous := previousResult.State();
    ghost var start := newResult.State();
    var previousDetails := previousResult.details;
    for i := 0 to |previousDetails|
      invariant newResult.State() == start.(details := start.details + previousDetails[..i])
      invariant previousResult.totalTests == previous.totalTests
      invariant previousResult.passedTests == previous.passedTests
    {
      assert previousDetails[..i + 1] == previousDetails[..i] + [previousDetails[i]];
      newResult.AddDetail(previousDetails[i]);
    }
    assert previousDetails[..|previousDetails|] == previous.details;
    if !IsPassed(previousResult.State()) {
      newResult.AddTest(false, PreviousFailed);
    }
    r := newResult;
  }
}
