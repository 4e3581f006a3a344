/** grading/week02/GradeResult.java.  Unlike the week-1 result this one keeps
    every test as a record with optional points, logs details verbatim, and
    is passed only when it has tests and all of them passed.  The pure value
    `Record` is what a result holds at one moment; the class `GradeResult`
    holds the same fields and is updated in place. */
module Week02Results {

  /** `GradeResult.TestResult`, without its timestamp. */
  datatype TestResult = TestResult(passed: bool, description: string, points: int, maxPoints: int)

  datatype Record = Record(testResults: seq<TestResult>, details: seq<string>,
                           totalTests: int, passedTests: int)

  /** The state of `new GradeResult()`. */
  function Fresh(): Record {
    Record([], [], 0, 0)
  }

  /** A test added without points: both point fields stay 0. */
  function Unscored(passed: bool, description: string): TestResult {
    TestResult(passed, description, 0, 0)
  }

  /** The state after the test is appended and counted. */
  function Recorded(r: Record, t: TestResult): Record {
    r.(testResults := r.testResults + [t],
       totalTests := r.totalTests + 1,
       passedTests := if t.passed then r.passedTests + 1 else r.passedTests)
  }

  /** The state after `addDetail(detail)`: the detail as given. */
  function WithDetail(r: Record, detail: string): Record {
    r.(details := r.details + [detail])
  }

  /** `isPassed()`. */
  predicate IsPassed(r: Record) {
    r.passedTests == r.totalTests && r.totalTests > 0
  }

  /** The number of passed tests among ts. */
  function PassedCount(ts: seq<TestResult>): (n: nat)
    ensures n <= |ts|
    decreases |ts|
  {
    if ts == [] then 0 else PassedCount(ts[..|ts| - 1]) + (if ts[|ts| - 1].passed then 1 else 0)
  }

  /** `getTotalPoints()`: the sum of the points of the tests. */
  function TotalPoints(ts: seq<TestResult>): int
    decreases |ts|
  {
    if ts == [] then 0 else TotalPoints(ts[..|ts| - 1]) + ts[|ts| - 1].points
  }

  /** `getMaxTotalPoints()`: the sum of the maximum points of the tests. */
  function MaxTotalPoints(ts: seq<TestResult>): int
    decreases |ts|
  {
    if ts == [] then 0 else MaxTotalPoints(ts[..|ts| - 1]) + ts[|ts| - 1].maxPoints
  }

  /** What every result satisfies: the counters count the recorded tests. */
  predicate Consistent(r: Record) {
    r.totalTests == |r.testResults| && r.passedTests == PassedCount(r.testResults)
  }

  /** A new result is consistent, has no tests and no details, and is not
      passed. */
  lemma FreshNotPassed()
    ensures Consistent(Fresh()) && !IsPassed(Fresh())
    ensures Fresh().testResults == [] && Fresh().details == []
  {
  }

  /** Adding a test keeps a result consistent, always counts it, counts it as
      passed exactly when it passed, and adds its points to the sums. */
  lemma RecordedKeepsConsistent(r: Record, t: TestResult)
    requires Consistent(r)
    ensures var n := Recorded(r, t);
            && Consistent(n)
            && n.testResults == r.testResults + [t]
            && n.totalTests == r.totalTests + 1
            && n.passedTests == r.passedTests + (if t.passed then 1 else 0)
            && n.passedTests <= n.totalTests
            && TotalPoints(n.testResults) == TotalPoints(r.testResults) + t.points
            && MaxTotalPoints(n.testResults) == MaxTotalPoints(r.testResults) + t.maxPoints
            && n.details == r.details
  {
    var ts := r.testResults + [t];
    assert ts[..|ts| - 1] == r.testResults;
  }

  /** A test added without points leaves both point sums unchanged. */
  lemma UnscoredKeepsPoints(r: Record, passed: bool, description: string)
    ensures var n := Recorded(r, Unscored(passed, description));
            && TotalPoints(n.testResults) == TotalPoints(r.testResults)
            && MaxTotalPoints(n.testResults) == MaxTotalPoints(r.testResults)
  {
    var ts := r.testResults + [Unscored(passed, description)];
    assert ts[..|ts| - 1] == r.testResults;
  }

  /** All tests passed exactly when the passed ones are all of them. */
  lemma {:induction false} PassedCountAll(ts: seq<TestResult>)
    ensures PassedCount(ts) == |ts| <==> forall i :: 0 <= i < |ts| ==> ts[i].passed
    decreases |ts|
  {
    if ts != [] {
      var init := ts[..|ts| - 1];
      PassedCountAll(init);
      if forall i :: 0 <= i < |ts| ==> ts[i].passed {
        forall i | 0 <= i < |init|
          ensures init[i].passed
        {
          assert init[i] == ts[i];
        }
      }
      if PassedCount(ts) == |ts| {
        forall i | 0 <= i < |ts|
          ensures ts[i].passed
        {
          if i < |init| {
            assert init[i] == ts[i];
          }
        }
      }
    }
  }

  /** A consistent result is passed exactly when it holds at least one test
      and every test it holds passed; in particular a result without tests is
      never passed. */
  lemma IsPassedMeaning(r: Record)
    requires Consistent(r)
    ensures IsPassed(r) <==> r.testResults != [] && forall i :: 0 <= i < |r.testResults| ==> r.testResults[i].passed
  {
    PassedCountAll(r.testResults);
  }

  /** `GradeResult`: the fields of a Record, updated in place.  The grading
      start and end times are not modelled.  The getters of the Java class
      return copies of the lists; a `seq` field is a value, so every read of
      one here is such a copy. */
  class GradeResult {
    var testResults: seq<TestResult>
    var details: seq<string>
    var totalTests: int
    var passedTests: int

    function State(): Record
      reads this
    {
      Record(testResults, details, totalTests, passedTests)
    }

    constructor ()
      ensures State() == Fresh()
    {
      testResults := [];
      details := [];
      totalTests := 0;
      passedTests := 0;
    }

    /** `addTest(passed, description)`. */
    method AddTest(passed: bool, description: string)
      modifies this
      ensures State() == Recorded(old(State()), Unscored(passed, description))
    {
      testResults := testResults + [TestResult(passed, description, 0, 0)];
      totalTests := totalTests + 1;
      if passed {
        passedTests := passedTests + 1;
      }
    }

    /** `addTest(passed, description, points, maxPoints)`. */
    method AddScoredTest(passed: bool, description: string, points: int, maxPoints: int)
      modifies this
      ensures State() == Recorded(old(State()), TestResult(passed, description, points, maxPoints))
    {
      var result := TestResult(passed, description, 0, 0);
      result := result.(points := points);
      result := result.(maxPoints := maxPoints);
      testResults := testResults + [result];
      totalTests := totalTests + 1;
      if passed {
        passedTests := passedTests + 1;
      }
    }

    /** `addDetail(detail)`. */
    method AddDetail(detail: string)
      modifies this
      ensures State() == WithDetail(old(State()), detail)
    {
      details := details + [detail];
    }
  }
}
