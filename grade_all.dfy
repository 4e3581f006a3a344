/** grade_all_students.py: a quick week-1 check of every student.  A student
    passes when at least five Java files are found under
    students/<id>/repo/problem/week01, and the verdict is written as a marker
    into students/<id>/grading/week01 when that directory exists. */
module GradeAllStudents {
  import opened Wrappers
  import opened Strings
  import opened FileSystem

  const StudentsDir: Path := ["students"]
  const PassMarker := "results.pass"
  const FailMarker := "results.fail"
  const MinJavaFiles := 5

  function RepoDir(id: string): Path {
    ["students", id, "repo"]
  }

  function ProblemDir(id: string): Path {
    ["students", id, "repo", "problem", "week01"]
  }

  function GradingWeekDir(id: string): Path {
    ["students", id, "grading", "week01"]
  }

  datatype Verdict = Pass | Fail | Unknown

  /** The record `check_student_code` returns. */
  datatype StudentCheck = StudentCheck(studentId: string, repoExists: bool, problemWeek01Exists: bool,
                                       gradingWeek01Exists: bool, javaFilesCount: nat, result: Verdict)

  /** `len(glob('*.java')) + len(glob('**' '/' '*.java'))`: the second pattern
      matches the files of dir itself as well, so those are counted twice. */
  function JavaCount(files: Files, dir: Path): nat {
    |Glob(files, dir, ".java")| + |GlobRecursive(files, dir, ".java")|
  }

  /** The count is twice the Java files directly in dir plus those deeper down. */
  lemma DirectFilesCountTwice(files: Files, dir: Path)
    ensures JavaCount(files, dir)
            == 2 * |Glob(files, dir, ".java")| + |GlobRecursive(files, dir, ".java") - Glob(files, dir, ".java")|
  {
    var direct := Glob(files, dir, ".java");
    var all := GlobRecursive(files, dir, ".java");
    GlobWithinRecursive(files, dir, ".java");
    assert all == direct + (all - direct);
    assert direct * (all - direct) == {};
  }

  /** What `check_student_code(id)` finds. */
  function Checked(files: Files, id: string): StudentCheck {
    var problem := ProblemDir(id) in files;
    var count := if problem then JavaCount(files, ProblemDir(id)) else 0;
    StudentCheck(id, RepoDir(id) in files, problem, GradingWeekDir(id) in files, count,
                 if !problem then Unknown else if count >= MinJavaFiles then Pass else Fail)
  }

  /** The files after `check_student_code(id)`: the verdict's marker is
      written into the grading directory when it exists. */
  function CheckedFiles(files: Files, clock: int, id: string): Files {
    var c := Checked(files, id);
    if c.result == Unknown || !c.gradingWeek01Exists then files
    else
      var passed := c.result == Pass;
      files[GradingWeekDir(id) + [if passed then PassMarker else FailMarker] := File(Marker(passed), clock)]
  }

  /** Without a problem folder the verdict is unknown with no files counted;
      with one it is pass exactly when at least five Java files are counted. */
  lemma CheckedVerdict(files: Files, id: string)
    ensures var c := Checked(files, id);
            && (c.result == Unknown <==> ProblemDir(id) !in files)
            && (c.result == Unknown ==> c.javaFilesCount == 0)
            && (c.result == Pass <==> ProblemDir(id) in files && JavaCount(files, ProblemDir(id)) >= 5)
            && (c.result == Fail <==> ProblemDir(id) in files && JavaCount(files, ProblemDir(id)) < 5)
  {
  }

  /** Three Java files directly in the problem folder already pass: each is
      counted twice. */
  lemma ThreeDirectFilesPass(files: Files, id: string)
    requires ProblemDir(id) in files && |Glob(files, ProblemDir(id), ".java")| >= 3
    ensures Checked(files, id).javaFilesCount >= 6 && Checked(files, id).result == Pass
  {
    DirectFilesCountTwice(files, ProblemDir(id));
  }

  /** The marker of a verdict. */
  function MarkerOf(id: string, passed: bool): Path {
    GradingWeekDir(id) + [if passed then PassMarker else FailMarker]
  }

  /** A marker is written only when the problem folder and the grading
      directory both exist; it is the pass marker exactly when the verdict is
      pass, and nothing else changes. */
  lemma CheckedMarkers(files: Files, clock: int, id: string)
    ensures var c := Checked(files, id);
            var after := CheckedFiles(files, clock, id);
            var written := c.result != Unknown && GradingWeekDir(id) in files;
            var m := MarkerOf(id, c.result == Pass);
            && (!written ==> after == files)
            && (written ==> m in after && after[m] == File(Marker(c.result == Pass), clock))
            && forall p :: p != m ==> (p in after <==> p in files) && (p in files ==> after[p] == files[p])
  {
  }

  /** `check_student_code(student_id)`. */
  method CheckStudentCode(fs: Fs, studentId: string) returns (result: StudentCheck)
    modifies fs
    ensures result == Checked(old(fs.files), studentId)
    ensures fs.files == CheckedFiles(old(fs.files), old(fs.clock), studentId) && fs.clock == old(fs.clock)
  {
    var repoDir := RepoDir(studentId);
    var problemDir := ProblemDir(studentId);
    var gradingWeekDir := GradingWeekDir(studentId);
    result := StudentCheck(studentId, fs.Exists(repoDir), fs.Exists(problemDir), fs.Exists(gradingWeekDir), 0, Unknown);
    if fs.Exists(problemDir) {
      var count := |Glob(fs.files, problemDir, ".java")| + |GlobRecursive(fs.files, problemDir, ".java")|;
      result := result.(javaFilesCount := count);
      if count >= MinJavaFiles {
        result := result.(result := Pass);
        if fs.Exists(gradingWeekDir) {
          fs.Write(gradingWeekDir + [PassMarker], Marker(true));
        }
      } else {
        result := result.(result := Fail);
        if fs.Exists(gradingWeekDir) {
          fs.Write(gradingWeekDir + [FailMarker], Marker(false));
        }
      }
    }
  }

  // ---------------------------------------------------------------------
  // main

  /** `student_folder.is_dir()` for the entry named n. */
  predicate IsStudentDir(files: Files, n: string) {
    StudentsDir + [n] in files && files[StudentsDir + [n]].Dir?
  }

  /** Python's `<` on strings: code point by code point, a proper prefix first. */
  predicate NameLess(a: string, b: string)
    decreases |a|
  {
    if a == [] then b != []
    else if b == [] then false
    else if a[0] != b[0] then a[0] < b[0]
    else NameLess(a[1..], b[1..])
  }

  lemma {:induction false} NameLessIrreflexive(a: string)
    ensures !NameLess(a, a)
    decreases |a|
  {
    if a != [] {
      NameLessIrreflexive(a[1..]);
    }
  }

  /** What `sorted(students_dir.iterdir())` yields, by name: every entry of
      the students folder, in increasing order. */
  ghost predicate SortedListing(files: Files, listing: seq<string>) {
    (forall n :: n in listing <==> StudentsDir + [n] in files)
    && forall i, j :: 0 <= i < j < |listing| ==> NameLess(listing[i], listing[j])
  }

  /** The files and the records after checking every directory of the
      listing in turn. */
  function CheckAll(files: Files, clock: int, listing: seq<string>): (Files, seq<StudentCheck>)
    decreases |listing|
  {
    if listing == [] then (files, [])
    else
      var (before, results) := CheckAll(files, clock, listing[..|listing| - 1]);
      var n := listing[|listing| - 1];
      if IsStudentDir(before, n) then (CheckedFiles(before, clock, n), results + [Checked(before, n)])
      else (before, results)
  }

  /** The counts of the summary. */
  datatype Summary = Summary(total: nat, passCount: nat, failCount: nat, unknownCount: nat)

  /** `sum(1 for r in results if r['result'] == v)`. */
  function Count(results: seq<StudentCheck>, v: Verdict): nat
    decreases |results|
  {
    if results == [] then 0
    else Count(results[..|results| - 1], v) + (if results[|results| - 1].result == v then 1 else 0)
  }

  function Summarize(results: seq<StudentCheck>): Summary {
    Summary(|results|, Count(results, Pass), Count(results, Fail), Count(results, Unknown))
  }

  /** Every record is counted exactly once in the summary. */
  lemma {:induction false} CountsAddUp(results: seq<StudentCheck>)
    ensures var s := Summarize(results);
            s.passCount + s.failCount + s.unknownCount == s.total
    decreases |results|
  {
    if results != [] {
      CountsAddUp(results[..|results| - 1]);
    }
  }

  /** `main()`: None when there is no students directory. */
  method GradeAll(fs: Fs, listing: seq<string>) returns (results: seq<StudentCheck>, summary: Option<Summary>)
    requires SortedListing(fs.files, listing)
    modifies fs
    ensures StudentsDir !in old(fs.files) ==> results == [] && summary == None && fs.files == old(fs.files)
    ensures StudentsDir in old(fs.files) ==>
              && (fs.files, results) == CheckAll(old(fs.files), old(fs.clock), listing)
              && summary == Some(Summarize(results))
    ensures fs.clock == old(fs.clock)
  {
    results := [];
    if !fs.Exists(StudentsDir) {
      return results, None;
    }
    for i := 0 to |listing|
      invariant (fs.files, results) == CheckAll(old(fs.files), old(fs.clock), listing[..i])
      invariant fs.clock == old(fs.clock)
    {
      assert listing[..i + 1][..i] == listing[..i];
      var name := listing[i];
      if IsStudentDir(fs.files, name) {
        var result := CheckStudentCode(fs, name);
        results := results + [result];
      }
    }
    assert listing[..|listing|] == listing;
    summary := Some(Summarize(results));
  }

  // ---------------------------------------------------------------------
  // Every check sees the files as they were before main

  /** p is a marker a check may write. */
  predicate MarkerPath(p: Path) {
    |p| == 5 && p[0] == "students" && p[2] == "grading" && p[3] == "week01"
    && (p[4] == PassMarker || p[4] == FailMarker)
  }

  /** after differs from files only in markers. */
  ghost predicate SameButMarkers(files: Files, after: Files) {
    forall p :: !MarkerPath(p) ==> (p in after <==> p in files) && (p in files ==> after[p] == files[p])
  }

  /** A check reads nothing a check writes. */
  lemma CheckedIgnoresMarkers(files: Files, after: Files, id: string)
    requires SameButMarkers(files, after)
    ensures Checked(after, id) == Checked(files, id)
  {
    var dir := ProblemDir(id);
    assert !MarkerPath(RepoDir(id)) && !MarkerPath(dir) && !MarkerPath(GradingWeekDir(id));
    forall q | Below(dir, q)
      ensures !MarkerPath(q)
    {
      assert q[2] == dir[2];
    }
    assert Glob(after, dir, ".java") == Glob(files, dir, ".java");
    assert GlobRecursive(after, dir, ".java") == GlobRecursive(files, dir, ".java");
  }

  /** The records of the checks, on the original files. */
  function ChecksOf(files: Files, names: seq<string>): (r: seq<StudentCheck>)
    ensures |r| == |names|
    decreases |names|
  {
    if names == [] then [] else ChecksOf(files, names[..|names| - 1]) + [Checked(files, names[|names| - 1])]
  }

  /** The directories among the names, in order. */
  function DirsOf(files: Files, names: seq<string>): seq<string>
    decreases |names|
  {
    if names == [] then []
    else DirsOf(files, names[..|names| - 1]) + (if IsStudentDir(files, names[|names| - 1]) then [names[|names| - 1]] else [])
  }

  lemma {:induction false} ChecksOfAppend(files: Files, names: seq<string>, n: string)
    ensures ChecksOf(files, names + [n]) == ChecksOf(files, names) + [Checked(files, n)]
  {
    assert (names + [n])[..|names|] == names;
  }

  lemma {:induction false} DirsOfMembers(files: Files, names: seq<string>)
    ensures forall x :: x in DirsOf(files, names) <==> x in names && IsStudentDir(files, x)
    decreases |names|
  {
    if names != [] {
      var init := names[..|names| - 1];
      DirsOfMembers(files, init);
      assert names == init + [names[|names| - 1]];
    }
  }

  /** Keeping the directories of a strictly increasing list keeps it strictly increasing. */
  lemma {:induction false} DirsOfIncreasing(files: Files, names: seq<string>)
    requires forall i, j :: 0 <= i < j < |names| ==> NameLess(names[i], names[j])
    ensures forall i, j :: 0 <= i < j < |DirsOf(files, names)| ==> NameLess(DirsOf(files, names)[i], DirsOf(files, names)[j])
    decreases |names|
  {
    if names != [] {
      var init := names[..|names| - 1];
      var n := names[|names| - 1];
      assert forall i :: 0 <= i < |init| ==> init[i] == names[i];
      DirsOfIncreasing(files, init);
      DirsOfMembers(files, init);
      var d := DirsOf(files, init);
      if IsStudentDir(files, n) {
        var dirs := d + [n];
        assert DirsOf(files, names) == dirs;
        forall i, j | 0 <= i < j < |dirs| ensures NameLess(dirs[i], dirs[j]) {
          if j == |d| {
            assert dirs[i] in init;
            var k :| 0 <= k < |init| && init[k] == dirs[i];
            assert names[k] == dirs[i] && names[|names| - 1] == n;
          } else {
            assert dirs[i] == d[i] && dirs[j] == d[j];
          }
        }
      } else {
        assert DirsOf(files, names) == d;
      }
    }
  }

  /** With the sorted listing, main checks every student directory exactly
      once, in increasing order of names. */
  lemma EachDirectoryOnce(files: Files, listing: seq<string>)
    requires SortedListing(files, listing)
    ensures var dirs := DirsOf(files, listing);
            && (forall n :: n in dirs <==> IsStudentDir(files, n))
            && (forall i, j :: 0 <= i < j < |dirs| ==> NameLess(dirs[i], dirs[j]) && dirs[i] != dirs[j])
  {
    var dirs := DirsOf(files, listing);
    DirsOfMembers(files, listing);
    DirsOfIncreasing(files, listing);
    forall i, j | 0 <= i < j < |dirs| ensures dirs[i] != dirs[j] {
      assert NameLess(dirs[i], dirs[j]);
      NameLessIrreflexive(dirs[i]);
    }
  }

  /** A check writes markers only. */
  lemma CheckedWritesMarkers(files: Files, before: Files, clock: int, n: string)
    requires SameButMarkers(files, before)
    ensures SameButMarkers(files, CheckedFiles(before, clock, n))
  {
    var c := Checked(before, n);
    CheckedMarkers(before, clock, n);
    assert MarkerPath(MarkerOf(n, c.result == Pass));
  }

  /** main checks exactly the directories of the listing, in its order, each
      as if it were alone: the markers written on the way change no record,
      and only markers are written. */
  lemma {:induction false} CheckAllRecords(files: Files, clock: int, listing: seq<string>)
    ensures SameButMarkers(files, CheckAll(files, clock, listing).0)
    ensures CheckAll(files, clock, listing).1 == ChecksOf(files, DirsOf(files, listing))
    decreases |listing|
  {
    if listing != [] {
      var init := listing[..|listing| - 1];
      var n := listing[|listing| - 1];
      CheckAllRecords(files, clock, init);
      var (before, results) := CheckAll(files, clock, init);
      assert IsStudentDir(before, n) <==> IsStudentDir(files, n) by {
        assert !MarkerPath(StudentsDir + [n]);
      }
      if IsStudentDir(files, n) {
        CheckedIgnoresMarkers(files, before, n);
        CheckedWritesMarkers(files, before, clock, n);
        ChecksOfAppend(files, DirsOf(files, init), n);
        assert DirsOf(files, listing) == DirsOf(files, init) + [n];
      } else {
        assert DirsOf(files, listing) == DirsOf(files, init);
      }
    }
  }
}
