/** bootstrap/generate_process_list.py: the bootstrap copy of the process
    list generator.  Unlike the course-level tool it never exits early: it
    reads what it can, keeps every row with a non-empty id and GitHub id
    (unconfirmed ids with '?' included), creates the output's directory and
    reports failure through its return value. */
module BootstrapProcessList {
  import opened Wrappers
  import opened Strings
  import opened FileSystem
  import opened Roster

  const DefaultRoster: Path := ["class_info", "roster.csv"]
  const DefaultTemplate := "https://github.com/HBNU-COME2201/software-design-practicum-{git_id}"
  const DefaultOutput: Path := ["class_info", "process_list.csv"]

  /** `row.get(key, '')` is None: the record is too short, and `.strip()` on
      the result raises. */
  predicate Short(row: Row, key: string) {
    key in row && row[key].None?
  }

  /** `row.get(key, '').strip()` on a row where it does not raise. */
  function Field(row: Row, key: string): string
    requires !Short(row, key)
  {
    if key in row then Strip(row[key].value) else ""
  }

  /** Reading this row raises. */
  predicate Raises(row: Row) {
    Short(row, IdColumn) || Short(row, GitIdColumn)
  }

  /** The row is kept: both fields are there and non-empty once stripped. */
  predicate Kept(row: Row) {
    !Raises(row) && Field(row, IdColumn) != [] && Field(row, GitIdColumn) != []
  }

  function StudentOf(row: Row): Student
    requires Kept(row)
  {
    Student(Field(row, IdColumn), Field(row, GitIdColumn))
  }

  /** The students of the rows, in order, up to the first row that raises:
      the handler swallows the exception and the students read so far are
      returned. */
  function Gathered(rows: seq<Row>): seq<Student>
    decreases |rows|
  {
    if rows == [] || Raises(rows[0]) then []
    else (if Kept(rows[0]) then [StudentOf(rows[0])] else []) + Gathered(rows[1..])
  }

  /** `read_roster(roster_path)`: an absent or unreadable roster gives no
      students. */
  function ReadRoster(roster: RosterFile): seq<Student> {
    match roster
    case Csv(records) => Gathered(DictRows(records))
    case _ => []
  }

  /** No row before the i-th raises. */
  predicate ReadUpTo(rows: seq<Row>, i: int) {
    forall j :: 0 <= j < i && j < |rows| ==> !Raises(rows[j])
  }

  lemma ReadUpToShift(rows: seq<Row>, i: nat)
    requires rows != [] && !Raises(rows[0]) && ReadUpTo(rows[1..], i)
    ensures ReadUpTo(rows, i + 1)
  {
    forall j | 0 < j < i + 1 && j < |rows|
      ensures !Raises(rows[j])
    {
      assert rows[j] == rows[1..][j - 1];
    }
  }

  /** Every student read has a non-empty id and GitHub id, and there are no
      more students than rows. */
  lemma {:induction false} GatheredFields(rows: seq<Row>)
    ensures |Gathered(rows)| <= |rows|
    ensures forall s :: s in Gathered(rows) ==> s.id != [] && s.gitId != []
    decreases |rows|
  {
    if rows != [] && !Raises(rows[0]) {
      GatheredFields(rows[1..]);
      GatheredFirst(rows);
    }
  }

  /** Every student read comes from a kept row before the first row that
      raises. */
  lemma {:induction false} GatheredOrigin(rows: seq<Row>)
    ensures forall s :: s in Gathered(rows) ==>
              exists i :: 0 <= i < |rows| && Kept(rows[i]) && StudentOf(rows[i]) == s && ReadUpTo(rows, i)
    decreases |rows|
  {
    if rows != [] && !Raises(rows[0]) {
      var tail := rows[1..];
      GatheredOrigin(tail);
      GatheredFirst(rows);
      forall s | s in Gathered(rows)
        ensures exists i :: 0 <= i < |rows| && Kept(rows[i]) && StudentOf(rows[i]) == s && ReadUpTo(rows, i)
      {
        if s !in Gathered(tail) {
          assert Kept(rows[0]) && s == StudentOf(rows[0]);
          assert ReadUpTo(rows, 0);
        } else {
          var i :| 0 <= i < |tail| && Kept(tail[i]) && StudentOf(tail[i]) == s && ReadUpTo(tail, i);
          OriginShift(rows, i);
        }
      }
    }
  }

  lemma OriginShift(rows: seq<Row>, i: nat)
    requires rows != [] && !Raises(rows[0]) && i < |rows| - 1
    requires Kept(rows[1..][i]) && ReadUpTo(rows[1..], i)
    ensures Kept(rows[i + 1]) && StudentOf(rows[i + 1]) == StudentOf(rows[1..][i]) && ReadUpTo(rows, i + 1)
  {
    ReadUpToShift(rows, i);
  }

  /** Rows after one that raises are never read. */
  lemma {:induction false} GatheredStops(rows: seq<Row>, k: nat)
    requires k < |rows| && Raises(rows[k])
    ensures Gathered(rows) == Gathered(rows[..k])
    decreases k
  {
    if k > 0 && !Raises(rows[0]) {
      assert rows[1..][k - 1] == rows[k];
      GatheredStops(rows[1..], k - 1);
      assert rows[1..][..k - 1] == rows[..k][1..];
    }
  }

  lemma GatheredFirst(rows: seq<Row>)
    requires rows != []
    ensures Raises(rows[0]) ==> Gathered(rows) == []
    ensures Kept(rows[0]) ==> Gathered(rows) == [StudentOf(rows[0])] + Gathered(rows[1..])
    ensures !Raises(rows[0]) && !Kept(rows[0]) ==> Gathered(rows) == Gathered(rows[1..])
  {
  }

  /** The loop of `read_roster` over the rows. */
  method ReadRows(rows: seq<Row>) returns (students: seq<Student>)
    ensures students == Gathered(rows)
  {
    students := [];
    for i := 0 to |rows|
      invariant students + Gathered(rows[i..]) == Gathered(rows)
    {
      var row := rows[i];
      GatheredFirst(rows[i..]);
      assert rows[i..][0] == row && rows[i..][1..] == rows[i + 1..];
      if Raises(row) {
        // `None.strip()` raises; the handler keeps what was read.
        assert students == Gathered(rows);
        return;
      }
      var studentId := Field(row, IdColumn);
      var gitId := Field(row, GitIdColumn);
      if studentId != [] && gitId != [] {
        students := students + [Student(studentId, gitId)];
      }
    }
    assert rows[|rows|..] == [];
  }

  /** What the loop of `generate_process_list` leaves in the file: the
      header, then a row per student up to the first template that fails to
      format; the flag says whether every student was written. */
  function Written(students: seq<Student>, template: string): (seq<seq<string>>, bool)
    decreases |students|
  {
    if students == [] then ([Header], true)
    else
      var (rows, ok) := Written(students[..|students| - 1], template);
      var s := students[|students| - 1];
      var url := Format(template, s.gitId);
      if !ok || url.Err? then (rows, false) else (rows + [[s.id, url.value]], true)
  }

  /** Either every student is listed, or the template fails for all of them
      and the file holds the header alone. */
  lemma {:induction false} WrittenOutcome(students: seq<Student>, template: string)
    ensures var (rows, ok) := Written(students, template);
            && (ok <==> students == [] || Format(template, students[0].gitId).Ok?)
            && (ok ==> ListsStudents(rows, students, template))
            && (!ok ==> rows == [Header])
    decreases |students|
  {
    if students != [] {
      var init := students[..|students| - 1];
      var s := students[|students| - 1];
      WrittenOutcome(init, template);
      FormatFailsAlike(template, students[0].gitId, s.gitId);
      if init != [] {
        assert init[0] == students[0];
      }
      var (rows, ok) := Written(init, template);
      var url := Format(template, s.gitId);
      if ok && url.Ok? {
        var t := rows + [[s.id, url.value]];
        forall i | 0 <= i < |students|
          ensures RowOf(t[i + 1], students[i], template)
        {
          if i < |init| {
            assert t[i + 1] == rows[i + 1];
            assert students[i] == init[i];
          }
        }
      }
    }
  }

  /** `open(path, 'w')` can open the path for writing. */
  predicate CanOpen(files: Files, p: Path) {
    p != [] && !(p in files && files[p].Dir?)
  }

  /** The files after `generate_process_list(students, template,
      output_path)`, and what it returns. */
  function Generated(files: Files, clock: int, students: seq<Student>, template: string, output: Path): (Files, bool) {
    var made := MadeDirs(files, clock, Parent(output));
    if made.None? then (files, false)
    else if !CanOpen(made.value, output) then (made.value, false)
    else
      var (rows, ok) := Written(students, template);
      (made.value[output := File(Table(rows), clock)], ok)
  }

  /** `generate_process_list(students, template, output_path)`. */
  method GenerateProcessList(fs: Fs, students: seq<Student>, template: string, output: Path) returns (ok: bool)
    modifies fs
    ensures (fs.files, ok) == Generated(old(fs.files), old(fs.clock), students, template, output)
    ensures fs.clock == old(fs.clock)
  {
    ok := fs.MakeDirs(Parent(output));
    if !ok {
      return;
    }
    ghost var made := fs.files;
    if !CanOpen(fs.files, output) {
      return false;
    }
    var rows := [Header];
    fs.Write(output, Table(rows));
    for i := 0 to |students|
      invariant Written(students[..i], template) == (rows, true)
      invariant fs.files == made[output := File(Table(rows), fs.clock)]
      invariant fs.clock == old(fs.clock)
    {
      assert students[..i + 1][..i] == students[..i];
      var url := Format(template, students[i].gitId);
      if url.Err? {
        WrittenStaysFailed(students, template, i + 1);
        return false;
      }
      rows := rows + [[students[i].id, url.value]];
      fs.Write(output, Table(rows));
    }
    assert students[..|students|] == students;
    ok := true;
  }

  /** Once a prefix of the students failed, the file does not change. */
  lemma {:induction false} WrittenStaysFailed(students: seq<Student>, template: string, k: nat)
    requires k <= |students| && !Written(students[..k], template).1
    ensures Written(students, template) == Written(students[..k], template)
    decreases |students| - k
  {
    if k < |students| {
      assert students[..k + 1][..k] == students[..k];
      WrittenStaysFailed(students, template, k + 1);
    } else {
      assert students[..k] == students;
    }
  }

  /** The files and the status `main()` returns with the given `--roster`
      file, `--template` and `--output`. */
  function Run(files: Files, clock: int, roster: RosterFile, template: string, output: Path): (Files, int) {
    var students := ReadRoster(roster);
    if students == [] then (files, 1)
    else
      var (after, ok) := Generated(files, clock, students, template, output);
      (after, if ok then 0 else 1)
  }

  /** `main()`. */
  method GenerateFromRoster(fs: Fs, roster: RosterFile, template: string, output: Path) returns (exitCode: int)
    modifies fs
    ensures (fs.files, exitCode) == Run(old(fs.files), old(fs.clock), roster, template, output)
  {
    var students := ReadRoster(roster);
    if students == [] {
      return 1;
    }
    var ok := GenerateProcessList(fs, students, template, output);
    exitCode := if ok then 0 else 1;
  }

  /** main returns 0 exactly when some student was read, every directory on
      the way to the output could be made, the output is not a directory and
      the template formats; then the output lists the students.  When the
      template fails the output holds the header alone. */
  lemma RunOutcome(files: Files, clock: int, roster: RosterFile, template: string, output: Path)
    ensures var (after, code) := Run(files, clock, roster, template, output);
            var students := ReadRoster(roster);
            var made := MadeDirs(files, clock, Parent(output));
            && (code == 0 || code == 1)
            && (code == 0 <==>
                  && students != [] && made.Some? && CanOpen(made.value, output)
                  && Format(template, students[0].gitId).Ok?)
            && (code == 0 ==>
                  output in after && after[output].File? && after[output].body.Table?
                  && ListsStudents(after[output].body.rows, students, template))
            && (students != [] && made.Some? && CanOpen(made.value, output) && code == 1 ==>
                  output in after && after[output] == File(Table([Header]), clock))
  {
    var students := ReadRoster(roster);
    if students != [] {
      WrittenOutcome(students, template);
    }
  }
}
