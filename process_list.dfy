/** generate_process_list.py: reads the roster, keeps the students with a
    confirmed GitHub id, substitutes it into the repository template and
    writes the process list as a CSV table. */
module ProcessList {
  import opened Wrappers
  import opened Strings
  import opened FileSystem
  import opened Roster

  /** One entry of the process list. */
  datatype Listing = Listing(id: string, repositoryUrl: string)

  /** What `read_roster` returns, or `sys.exit(1)` when the file cannot be
      read as a roster. */
  datatype Read = Read(students: seq<Student>, skipped: seq<string>) | ReadFailed

  /** A row with both columns, whatever their fields. */
  predicate HasColumns(row: Row) {
    IdColumn in row && GitIdColumn in row
  }

  /** A row with both columns whose fields are present. */
  predicate Complete(row: Row) {
    HasColumns(row) && row[IdColumn].Some? && row[GitIdColumn].Some?
  }

  /** A row with both columns and a missing field: `.strip()` on it raises,
      and the handler ends the program. */
  predicate Malformed(row: Row) {
    HasColumns(row) && !Complete(row)
  }

  function StudentOf(row: Row): Student
    requires Complete(row)
  {
    Student(Strip(row[IdColumn].value), Strip(row[GitIdColumn].value))
  }

  /** A confirmed GitHub id: not empty and without a '?'. */
  predicate Confirmed(gitId: string) {
    gitId != [] && '?' !in gitId
  }

  /** One pass of the loop of `read_roster`. */
  function Step(prior: Read, row: Row): Read {
    if prior.ReadFailed? || !HasColumns(row) then prior
    else if !Complete(row) then ReadFailed
    else
      var s := StudentOf(row);
      if Confirmed(s.gitId) then prior.(students := prior.students + [s])
      else prior.(skipped := prior.skipped + [s.id])
  }

  /** The students and the skipped ids from the rows, in order; ReadFailed
      when some row is malformed. */
  function Filtered(rows: seq<Row>): Read
    decreases |rows|
  {
    if rows == [] then Read([], []) else Step(Filtered(rows[..|rows| - 1]), rows[|rows| - 1])
  }

  /** `read_roster(roster_path)`. */
  function ReadRoster(roster: RosterFile): Read {
    match roster
    case Csv(records) => Filtered(DictRows(records))
    case _ => ReadFailed
  }

  /** The rows kept, in order. */
  function KeptRows(rows: seq<Row>): seq<Row>
    decreases |rows|
  {
    if rows == [] then []
    else
      var row := rows[|rows| - 1];
      KeptRows(rows[..|rows| - 1])
      + (if Complete(row) && Confirmed(StudentOf(row).gitId) then [row] else [])
  }

  /** When the roster reads, the students are exactly the rows with both
      fields and a confirmed id, stripped, in order. */
  lemma {:induction false} FilteredKeeps(rows: seq<Row>)
    ensures var r := Filtered(rows);
            r.Read? ==>
              && |r.students| == |KeptRows(rows)|
              && (forall i :: 0 <= i < |r.students| ==>
                    Complete(KeptRows(rows)[i]) && r.students[i] == StudentOf(KeptRows(rows)[i]))
              && (forall i :: 0 <= i < |r.students| ==> Confirmed(r.students[i].gitId))
    decreases |rows|
  {
    if rows != [] {
      var init := rows[..|rows| - 1];
      var row := rows[|rows| - 1];
      FilteredKeeps(init);
      var prior := Filtered(init);
      var kept := KeptRows(init);
      var r := Filtered(rows);
      assert r == Step(prior, row);
      if prior.Read? && Complete(row) && Confirmed(StudentOf(row).gitId) {
        var s := StudentOf(row);
        assert KeptRows(rows) == kept + [row];
        assert r.students == prior.students + [s];
        forall i | 0 <= i < |r.students|
          ensures Complete(KeptRows(rows)[i]) && r.students[i] == StudentOf(KeptRows(rows)[i])
        {
          if i < |prior.students| {
            assert r.students[i] == prior.students[i];
            assert KeptRows(rows)[i] == kept[i];
          }
        }
      } else if r.Read? {
        assert KeptRows(rows) == kept;
        assert r.students == prior.students;
      }
    }
  }

  /** Some row is malformed. */
  predicate AnyMalformed(rows: seq<Row>) {
    exists i :: 0 <= i < |rows| && Malformed(rows[i])
  }

  lemma AnyMalformedSplit(rows: seq<Row>)
    requires rows != []
    ensures AnyMalformed(rows) <==> AnyMalformed(rows[..|rows| - 1]) || Malformed(rows[|rows| - 1])
  {
    var init := rows[..|rows| - 1];
    if AnyMalformed(rows) {
      var i :| 0 <= i < |rows| && Malformed(rows[i]);
      if i < |init| {
        assert Malformed(init[i]);
      }
    }
    if AnyMalformed(init) {
      var i :| 0 <= i < |init| && Malformed(init[i]);
      assert Malformed(rows[i]);
    }
  }

  /** Reading fails exactly when some row is malformed. */
  lemma {:induction false} FilteredFails(rows: seq<Row>)
    ensures Filtered(rows).ReadFailed? <==> AnyMalformed(rows)
    decreases |rows|
  {
    if rows != [] {
      FilteredFails(rows[..|rows| - 1]);
      AnyMalformedSplit(rows);
    }
  }

  /** The loop of `read_roster` over the rows. */
  method ReadRows(rows: seq<Row>) returns (r: Read)
    ensures r == Filtered(rows)
  {
    var students: seq<Student> := [];
    var skipped: seq<string> := [];
    for i := 0 to |rows|
      invariant Filtered(rows[..i]) == Read(students, skipped)
    {
      assert rows[..i + 1][..i] == rows[..i];
      ghost var next := Step(Read(students, skipped), rows[i]);
      assert Filtered(rows[..i + 1]) == next;
      var row := rows[i];
      if IdColumn in row && GitIdColumn in row {
        if row[IdColumn].None? || row[GitIdColumn].None? {
          // `None.strip()` raises; the handler exits with status 1.
          FilteredStaysFailed(rows, i + 1);
          return ReadFailed;
        }
        var studentId := Strip(row[IdColumn].value);
        var gitId := Strip(row[GitIdColumn].value);
        if gitId == [] {
          skipped := skipped + [studentId];
          continue;
        }
        if '?' in gitId {
          skipped := skipped + [studentId];
          continue;
        }
        students := students + [Student(studentId, gitId)];
      }
    }
    assert rows[..|rows|] == rows;
    r := Read(students, skipped);
  }

  /** Once a prefix has failed, the whole does. */
  lemma {:induction false} FilteredStaysFailed(rows: seq<Row>, k: nat)
    requires k <= |rows| && Filtered(rows[..k]).ReadFailed?
    ensures Filtered(rows).ReadFailed?
    decreases |rows| - k
  {
    if k < |rows| {
      assert rows[..k + 1][..k] == rows[..k];
      FilteredStaysFailed(rows, k + 1);
    } else {
      assert rows[..k] == rows;
    }
  }

  /** `generate_repository_urls(students, template)`, as a value: Err where
      formatting raises, which ends the program with status 1. */
  function Urls(students: seq<Student>, template: string): Result<seq<Listing>>
    decreases |students|
  {
    if students == [] then Ok([])
    else
      var prior := Urls(students[..|students| - 1], template);
      var s := students[|students| - 1];
      if prior.Err? then prior
      else
        var url := Format(template, s.gitId);
        if url.Err? then Err(url.error) else Ok(prior.value + [Listing(s.id, url.value)])
  }

  /** On success there is one entry per student, in order, with the id kept
      and the template filled with the student's GitHub id. */
  lemma {:induction false} UrlsEntries(students: seq<Student>, template: string)
    ensures var r := Urls(students, template);
            r.Ok? ==>
              && |r.value| == |students|
              && forall i :: 0 <= i < |students| ==>
                   && r.value[i].id == students[i].id
                   && Format(template, students[i].gitId) == Ok(r.value[i].repositoryUrl)
    decreases |students|
  {
    if students != [] {
      var init := students[..|students| - 1];
      UrlsEntries(init, template);
      var r := Urls(students, template);
      if r.Ok? {
        var prior := Urls(init, template);
        forall i | 0 <= i < |students|
          ensures r.value[i].id == students[i].id
          ensures Format(template, students[i].gitId) == Ok(r.value[i].repositoryUrl)
        {
          if i < |init| {
            assert r.value[i] == prior.value[i];
            assert students[i] == init[i];
          }
        }
      }
    }
  }

  /** For a non-empty roster the template fails for some student exactly
      when it fails for the first: failure depends on the template only. */
  lemma {:induction false} UrlsFailure(students: seq<Student>, template: string)
    requires students != []
    ensures Urls(students, template).Err? <==> Format(template, students[0].gitId).Err?
    decreases |students|
  {
    var init := students[..|students| - 1];
    var last := students[|students| - 1];
    FormatFailsAlike(template, students[0].gitId, last.gitId);
    if init != [] {
      UrlsFailure(init, template);
      assert init[0] == students[0];
    }
  }

  /** `generate_repository_urls(students, template)`. */
  method GenerateRepositoryUrls(students: seq<Student>, template: string) returns (r: Result<seq<Listing>>)
    ensures r == Urls(students, template)
  {
    var processList: seq<Listing> := [];
    for i := 0 to |students|
      invariant Urls(students[..i], template) == Ok(processList)
    {
      assert students[..i + 1][..i] == students[..i];
      var url := Format(template, students[i].gitId);
      if url.Err? {
        UrlsStaysFailed(students, template, i + 1);
        return Err(url.error);
      }
      processList := processList + [Listing(students[i].id, url.value)];
    }
    assert students[..|students|] == students;
    r := Ok(processList);
  }

  lemma {:induction false} UrlsStaysFailed(students: seq<Student>, template: string, k: nat)
    requires k <= |students| && Urls(students[..k], template).Err?
    ensures Urls(students, template) == Urls(students[..k], template)
    decreases |students| - k
  {
    if k < |students| {
      assert students[..k + 1][..k] == students[..k];
      UrlsStaysFailed(students, template, k + 1);
    } else {
      assert students[..k] == students;
    }
  }

  /** The CSV rows of the process list: the header, then id and url. */
  function CsvRows(entries: seq<Listing>): (t: seq<seq<string>>)
    ensures |t| == |entries| + 1
    ensures t[0] == Header
    ensures forall i :: 0 <= i < |entries| ==> t[i + 1] == [entries[i].id, entries[i].repositoryUrl]
    decreases |entries|
  {
    if entries == [] then [Header]
    else
      var last := entries[|entries| - 1];
      CsvRows(entries[..|entries| - 1]) + [[last.id, last.repositoryUrl]]
  }

  /** `open(path, 'w')` can create the file: its directory exists and it is
      not itself a directory. */
  predicate CanCreate(files: Files, p: Path) {
    && p != []
    && (Parent(p) == [] || (Parent(p) in files && files[Parent(p)].Dir?))
    && !(p in files && files[p].Dir?)
  }

  /** `write_process_list(process_list, output_path)`; returns false where
      the handler exits with status 1. */
  method WriteProcessList(fs: Fs, processList: seq<Listing>, outputPath: Path) returns (ok: bool)
    modifies fs
    ensures ok <==> CanCreate(old(fs.files), outputPath)
    ensures ok ==> fs.files == old(fs.files)[outputPath := File(Table(CsvRows(processList)), old(fs.clock))]
    ensures !ok ==> fs.files == old(fs.files)
    ensures fs.clock == old(fs.clock)
  {
    if !CanCreate(fs.files, outputPath) {
      return false;
    }
    var rows := [Header];
    fs.Write(outputPath, Table(rows));
    for i := 0 to |processList|
      invariant rows == CsvRows(processList[..i])
      invariant fs.files == old(fs.files)[outputPath := File(Table(rows), old(fs.clock))]
      invariant fs.clock == old(fs.clock)
    {
      assert processList[..i + 1][..i] == processList[..i];
      rows := rows + [[processList[i].id, processList[i].repositoryUrl]];
      fs.Write(outputPath, Table(rows));
    }
    assert processList[..|processList|] == processList;
    ok := true;
  }

  const DefaultOutput: Path := ["process_list.csv"]

  /** The files and the exit status after `main()` with the given
      `--roster` file, `--template` and `--output`. */
  function Run(files: Files, clock: int, roster: RosterFile, template: string, output: Path): (Files, int) {
    if roster.Missing? then (files, 1)
    else if !Contains(template, Placeholder) then (files, 1)
    else
      var read := ReadRoster(roster);
      if read.ReadFailed? then (files, 1)
      else if read.students == [] then (files, 0)
      else Published(files, clock, read.students, template, output)
  }

  /** The files and the exit status once students were read: the urls are
      generated, then the list is written. */
  function Published(files: Files, clock: int, students: seq<Student>, template: string, output: Path): (Files, int) {
    var urls := Urls(students, template);
    if urls.Err? then (files, 1)
    else if !CanCreate(files, output) then (files, 1)
    else (files[output := File(Table(CsvRows(urls.value)), clock)], 0)
  }

  /** `main()`. */
  method Generate(fs: Fs, roster: RosterFile, template: string, output: Path) returns (exitCode: int)
    modifies fs
    ensures (fs.files, exitCode) == Run(old(fs.files), old(fs.clock), roster, template, output)
    ensures fs.clock == old(fs.clock)
  {
    if roster.Missing? {
      return 1;
    }
    if !Contains(template, Placeholder) {
      return 1;
    }
    var read := ReadRoster(roster);
    if read.ReadFailed? {
      return 1;
    }
    if read.students == [] {
      return 0;
    }
    var processList := GenerateRepositoryUrls(read.students, template);
    if processList.Err? {
      return 1;
    }
    var ok := WriteProcessList(fs, processList.value, output);
    exitCode := if ok then 0 else 1;
  }

  /** The table written for students whose urls formatted lists them. */
  lemma ListingTable(students: seq<Student>, template: string, entries: seq<Listing>)
    requires Urls(students, template) == Ok(entries)
    ensures ListsStudents(CsvRows(entries), students, template)
  {
    UrlsEntries(students, template);
    var t := CsvRows(entries);
    forall i | 0 <= i < |students|
      ensures RowOf(t[i + 1], students[i], template)
    {
      assert entries[i].id == students[i].id;
      assert Format(template, students[i].gitId) == Ok(entries[i].repositoryUrl);
      assert t[i + 1] == [entries[i].id, entries[i].repositoryUrl];
    }
    assert |t| == |students| + 1 && t[0] == Header;
  }

  /** After the students were read, the only file written is the output, on
      status 0, and it lists them. */
  lemma PublishedOutcome(files: Files, clock: int, students: seq<Student>, template: string, output: Path)
    ensures var (after, code) := Published(files, clock, students, template, output);
            && (code == 0 || code == 1)
            && (code == 0 <==> Urls(students, template).Ok? && CanCreate(files, output))
            && (code == 1 ==> after == files)
            && (code == 0 ==>
                  && output in after && after - {output} == files - {output}
                  && after[output].File? && after[output].body.Table?
                  && ListsStudents(after[output].body.rows, students, template))
  {
    var urls := Urls(students, template);
    if urls.Ok? && CanCreate(files, output) {
      ListingTable(students, template, urls.value);
    }
  }

  /** The only file main writes is the output, and only on status 0; then it
      lists the confirmed students in roster order, with the template filled
      in.  A template without "{git_id}" is rejected before the roster is
      read, and an empty list of students ends main with status 0 and no
      file. */
  lemma RunOutcome(files: Files, clock: int, roster: RosterFile, template: string, output: Path)
    ensures var (after, code) := Run(files, clock, roster, template, output);
            && (code == 0 || code == 1)
            && (!Contains(template, Placeholder) ==> code == 1 && after == files)
            && (after != files ==>
                  && code == 0
                  && output in after && after - {output} == files - {output}
                  && after[output].File? && after[output].body.Table?
                  && ListsStudents(after[output].body.rows, ReadRoster(roster).students, template))
  {
    if !roster.Missing? && Contains(template, Placeholder) {
      var read := ReadRoster(roster);
      if read.Read? && read.students != [] {
        PublishedOutcome(files, clock, read.students, template, output);
      }
    }
  }
}
