/** grading/week01/GradeResult.java and the result merge of
    grading/week01/GraderDecorator.java.  A result counts its tests, keeps the
    messages of the passed and of the failed tests apart, and logs every call
    in `details`.  The pure value `Tally` is what a result holds at one moment;
    the class `GradeResult` holds the same fields and is updated in place. */
module Week01Results {
  import opened Strings

  datatype Tally = Tally(passed: bool, totalTests: int, passedTests: int,
                         successMessages: seq<string>, failureMessages: seq<string>,
                         details: seq<string>)

  /** The state of `new GradeResult()`. */
  function Fresh(): Tally {
    Tally(true, 0, 0, [], [], [])
  }

  /** The prefix `addTest` puts in front of its message in the log. */
  function Tag(testPassed: bool): string {
    if testPassed then "[PASS] " else "[FAIL] "
  }

  /** The state after `addTest(testPassed, message)`. */
  function WithTest(t: Tally, testPassed: bool, message: string): Tally {
    if testPassed then
      t.(totalTests := t.totalTests + 1, passedTests := t.passedTests + 1,
         successMessages := t.successMessages + [message],
         details := t.details + [Tag(true) + message])
    else
      t.(passed := false, totalTests := t.totalTests + 1,
         failureMessages := t.failureMessages + [message],
         details := t.details + [Tag(false) + message])
  }

  /** The state after `addDetail(detail)`. */
  function WithDetail(t: Tally, detail: string): Tally {
    t.(details := t.details + ["[INFO] " + detail])
  }

  /** What every result satisfies: the counters agree with the message lists,
      and the result is passed exactly while no test has failed. */
  predicate Consistent(t: Tally) {
    && t.passedTests == |t.successMessages|
    && t.totalTests == t.passedTests + |t.failureMessages|
    && (t.passed <==> t.failureMessages == [])
  }

  /** A new result is passed, with no tests and empty lists; it is consistent. */
  lemma FreshConsistent()
    ensures Consistent(Fresh())
    ensures Fresh().passed && Fresh().totalTests == 0 && Fresh().passedTests == 0
    ensures Fresh().successMessages == [] && Fresh().failureMessages == [] && Fresh().details == []
  {
  }

  /** `addTest` keeps a result consistent, always counts the test, counts it
      as passed exactly when it passed, logs it with its tag, and never turns
      a failed result back into a passed one. */
  lemma TestKeepsConsistent(t: Tally, testPassed: bool, message: string)
    requires Consistent(t)
    ensures var r := WithTest(t, testPassed, message);
            && Consistent(r)
            && r.totalTests == t.totalTests + 1
            && r.passedTests == t.passedTests + (if testPassed then 1 else 0)
            && (r.passed ==> t.passed)
            && (r.passed <==> t.passed && testPassed)
            && r.details == t.details + [Tag(testPassed) + message]
  {
  }

  /** `addDetail` logs the detail with the "[INFO] " prefix and changes nothing else. */
  lemma DetailKeepsConsistent(t: Tally, detail: string)
    requires Consistent(t)
    ensures var r := WithDetail(t, detail);
            && Consistent(r)
            && r.(details := t.details) == t
            && r.details == t.details + ["[INFO] " + detail]
  {
  }

  /** One call a grader makes on the result it builds. */
  datatype Call = Test(testPassed: bool, message: string) | Detail(text: string)

  /** The result after the calls, in order. */
  function Replay(t: Tally, calls: seq<Call>): Tally
    decreases |calls|
  {
    if calls == [] then t
    else
      var prior := Replay(t, calls[..|calls| - 1]);
      match calls[|calls| - 1]
      case Test(p, m) => WithTest(prior, p, m)
      case Detail(d) => WithDetail(prior, d)
  }

  /** Whatever a grader does to a result through its methods, the result stays consistent. */
  lemma {:induction false} ReplayConsistent(t: Tally, calls: seq<Call>)
    requires Consistent(t)
    ensures Consistent(Replay(t, calls))
    ensures |Replay(t, calls).details| == |t.details| + |calls|
    decreases |calls|
  {
    if calls != [] {
      ReplayConsistent(t, calls[..|calls| - 1]);
    }
  }

  /** `addTest(testPassed, m)` for each m of msgs in turn. */
  function AddAll(t: Tally, testPassed: bool, msgs: seq<string>): Tally
    decreases |msgs|
  {
    if msgs == [] then t
    else WithTest(AddAll(t, testPassed, msgs[..|msgs| - 1]), testPassed, msgs[|msgs| - 1])
  }

  /** The log lines `addTest` writes for each of msgs. */
  function Tagged(testPassed: bool, msgs: seq<string>): (r: seq<string>)
    ensures |r| == |msgs|
  {
    seq(|msgs|, i requires 0 <= i < |msgs| => Tag(testPassed) + msgs[i])
  }

  /** Adding a run of tests with the same outcome, in one step. */
  lemma {:induction false} AddAllEffect(t: Tally, testPassed: bool, msgs: seq<string>)
    ensures var r := AddAll(t, testPassed, msgs);
            && r.totalTests == t.totalTests + |msgs|
            && r.passedTests == t.passedTests + (if testPassed then |msgs| else 0)
            && r.successMessages == (if testPassed then t.successMessages + msgs else t.successMessages)
            && r.failureMessages == (if testPassed then t.failureMessages else t.failureMessages + msgs)
            && r.passed == (t.passed && (testPassed || msgs == []))
            && r.details == t.details + Tagged(testPassed, msgs)
    decreases |msgs|
  {
    if msgs != [] {
      var init := msgs[..|msgs| - 1];
      AddAllEffect(t, testPassed, init);
      assert msgs == init + [msgs[|msgs| - 1]];
      assert Tagged(testPassed, msgs) == Tagged(testPassed, init) + [Tag(testPassed) + msgs[|msgs| - 1]];
    }
  }

  /** `mergeResults(original, additional)`: a fresh result that re-adds the
      original's passed tests, its failed tests, then the additional's passed
      and failed tests.  The detail copies go into lists `getDetails` returned,
      so no detail of either input survives. */
  function Merged(original: Tally, additional: Tally): Tally {
    var withOriginal := AddAll(AddAll(Fresh(), true, original.successMessages), false, original.failureMessages);
    AddAll(AddAll(withOriginal, true, additional.successMessages), false, additional.failureMessages)
  }

  /** A run of passed tests: counted, listed and logged, nothing else changes. */
  lemma AddPassed(t: Tally, msgs: seq<string>)
    ensures AddAll(t, true, msgs)
            == t.(totalTests := t.totalTests + |msgs|, passedTests := t.passedTests + |msgs|,
                  successMessages := t.successMessages + msgs, details := t.details + Tagged(true, msgs))
  {
    AddAllEffect(t, true, msgs);
  }

  /** A run of failed tests: counted, listed and logged, and the result fails
      when the run is not empty. */
  lemma AddFailed(t: Tally, msgs: seq<string>)
    ensures AddAll(t, false, msgs)
            == t.(passed := t.passed && msgs == [], totalTests := t.totalTests + |msgs|,
                  failureMessages := t.failureMessages + msgs, details := t.details + Tagged(false, msgs))
  {
    AddAllEffect(t, false, msgs);
  }

  /** The merged result holds the messages of both inputs in order, counts
      every one of them, is passed exactly when neither input has a failure,
      and its log holds only the tagged lines of the re-added tests. */
  lemma MergedContents(original: Tally, additional: Tally)
    ensures var m := Merged(original, additional);
            && m.successMessages == original.successMessages + additional.successMessages
            && m.failureMessages == original.failureMessages + additional.failureMessages
            && m.totalTests == |original.successMessages| + |original.failureMessages|
                               + |additional.successMessages| + |additional.failureMessages|
            && m.passedTests == |original.successMessages| + |additional.successMessages|
            && (m.passed <==> original.failureMessages == [] && additional.failureMessages == [])
            && m.details == Tagged(true, original.successMessages) + Tagged(false, original.failureMessages)
                            + Tagged(true, additional.successMessages) + Tagged(false, additional.failureMessages)
  {
    var t1 := AddAll(Fresh(), true, original.successMessages);
    AddPassed(Fresh(), original.successMessages);
    var t2 := AddAll(t1, false, original.failureMessages);
    AddFailed(t1, original.failureMessages);
    var t3 := AddAll(t2, true, additional.successMessages);
    AddPassed(t2, additional.successMessages);
    AddFailed(t3, additional.failureMessages);
    assert t1.details == Tagged(true, original.successMessages);
  }

  /** On consistent inputs the merged counters are the sums of the inputs'
      counters, and the merged result passes exactly when both inputs passed. */
  lemma MergedSums(original: Tally, additional: Tally)
    requires Consistent(original) && Consistent(additional)
    ensures var m := Merged(original, additional);
            && Consistent(m)
            && m.totalTests == original.totalTests + additional.totalTests
            && m.passedTests == original.passedTests + additional.passedTests
            && (m.passed <==> original.passed && additional.passed)
  {
    MergedContents(original, additional);
  }

  /** Every line of the merged log is a "[PASS] " or "[FAIL] " line, so no
      "[INFO] " detail of either input is carried over. */
  lemma MergedDropsInfo(original: Tally, additional: Tally)
    ensures var m := Merged(original, additional);
            forall i :: 0 <= i < |m.details| ==>
              (StartsWith(m.details[i], "[PASS] ") || StartsWith(m.details[i], "[FAIL] "))
              && !StartsWith(m.details[i], "[INFO] ")
  {
    MergedContents(original, additional);
    var m := Merged(original, additional);
    var a := Tagged(true, original.successMessages);
    var b := Tagged(false, original.failureMessages);
    var c := Tagged(true, additional.successMessages);
    var d := Tagged(false, additional.failureMessages);
    forall i | 0 <= i < |m.details|
      ensures (StartsWith(m.details[i], "[PASS] ") || StartsWith(m.details[i], "[FAIL] "))
              && !StartsWith(m.details[i], "[INFO] ")
    {
      var line := m.details[i];
      assert exists p: bool, msg: string :: line == Tag(p) + msg by {
        if i < |a| {
          assert line == a[i];
        } else if i < |a| + |b| {
          assert line == b[i - |a|];
        } else if i < |a| + |b| + |c| {
          assert line == c[i - |a| - |b|];
        } else {
          assert line == d[i - |a| - |b| - |c|];
        }
      }
      var p: bool, msg: string :| line == Tag(p) + msg;
      assert line[..7] == Tag(p);
      assert line[1] != 'I';
    }
  }

  /** A detail logged on the original result is gone after a merge. */
  lemma MergedLosesDetail(detail: string)
    ensures Merged(WithDetail(Fresh(), detail), Fresh()).details == []
  {
    MergedContents(WithDetail(Fresh(), detail), Fresh());
  }

  /** `GradeResult`: the fields of a Tally, updated in place.  The getters of
      the Java class return copies of the lists; a `seq` field is a value,
      so every read of one here is such a copy. */
  class GradeResult {
    var passed: bool
    var totalTests: int
    var passedTests: int
    var successMessages: seq<string>
    var failureMessages: seq<string>
    var details: seq<string>

    function State(): Tally
      reads this
    {
      Tally(passed, totalTests, passedTests, successMessages, failureMessages, details)
    }

    constructor ()
      ensures State() == Fresh()
    {
      passed := true;
      totalTests := 0;
      passedTests := 0;
      successMessages := [];
      failureMessages := [];
      details := [];
    }

    /** `addTest(testPassed, message)`. */
    method AddTest(testPassed: bool, message: string)
      modifies this
      ensures State() == WithTest(old(State()), testPassed, message)
    {
      totalTests := totalTests + 1;
      if testPassed {
        passedTests := passedTests + 1;
        successMessages := successMessages + [message];
      } else {
        passed := false;
        failureMessages := failureMessages + [message];
      }
      details := details + [Tag(testPassed) + message];
    }

    /** `addDetail(detail)`. */
    method AddDetail(detail: string)
      modifies this
      ensures State() == WithDetail(old(State()), detail)
    {
      details := details + ["[INFO] " + detail];
    }
  }

  /** `addTest(testPassed, m)` on result for every m of msgs, in order. */
  method AddEach(result: GradeResult, testPassed: bool, msgs: seq<string>)
    modifies result
    ensures result.State() == AddAll(old(result.State()), testPassed, msgs)
  {
    ghost var start := result.State();
    for i := 0 to |msgs|
      invariant result.State() == AddAll(start, testPassed, msgs[..i])
    {
      assert msgs[..i + 1][..i] == msgs[..i];
      result.AddTest(testPassed, msgs[i]);
    }
    assert msgs[..|msgs|] == msgs;
  }

  /** `GraderDecorator.mergeResults(original, additional)`. */
  method MergeResults(original: GradeResult, additional: GradeResult) returns (merged: GradeResult)
    ensures fresh(merged)
    ensures merged.State() == Merged(original.State(), additional.State())
  {
    merged := new GradeResult();
    var originalDetails := original.details;
    for i := 0 to |originalDetails|
      invariant merged.State() == Fresh()
    {
      // `merged.getDetails().add(detail)` appends to a copy of the list.
      var copy := merged.details;
      copy := copy + [originalDetails[i]];
    }
    AddEach(merged, true, original.successMessages);
    AddEach(merged, false, original.failureMessages);
    AddEach(merged, true, additional.successMessages);
    AddEach(merged, false, additional.failureMessages);
    var additionalDetails := additional.details;
    for i := 0 to |additionalDetails|
      invariant merged.State() == Merged(original.State(), additional.State())
    {
      var copy := merged.details;
      copy := copy + [additionalDetails[i]];
    }
  }
}
