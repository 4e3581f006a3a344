/** What generate_process_list.py and bootstrap/generate_process_list.py
    share: the roster as `csv.DictReader` presents it, Python's
    `template.format(git_id=...)`, and the layout of the process list. */
module Roster {
  import opened Wrappers
  import opened Strings

  /** The roster file: absent, present but not readable as text (a
      directory, a decoding error), or its CSV records, each a list of
      fields. */
  datatype RosterFile = Missing | Unreadable | Csv(records: seq<seq<string>>)

  /** A `DictReader` row: each column of the header to the field under it,
      None where the record is too short. */
  type Row = map<string, Option<string>>

  /** The row for one record under the header; a repeated column name takes
      the last field under it. */
  function DictRow(header: seq<string>, values: seq<string>): (r: Row)
    ensures forall k :: k in r <==> k in header
    decreases |header|
  {
    if header == [] then map[]
    else
      var last := |header| - 1;
      DictRow(header[..last], values)[header[last] := if last < |values| then Some(values[last]) else None]
  }

  /** The rows `DictReader` yields: the first record is the header, and
      empty records are skipped. */
  function DictRows(records: seq<seq<string>>): seq<Row> {
    if records == [] then [] else RowsUnder(records[0], records[1..])
  }

  function RowsUnder(header: seq<string>, records: seq<seq<string>>): (r: seq<Row>)
    ensures |r| <= |records|
    decreases |records|
  {
    if records == [] then []
    else
      var init := RowsUnder(header, records[..|records| - 1]);
      var last := records[|records| - 1];
      if last == [] then init else init + [DictRow(header, last)]
  }

  const Placeholder := "{git_id}"

  /** The string has no replacement-field syntax. */
  predicate BraceFree(s: string) {
    forall i :: 0 <= i < |s| ==> s[i] != '{' && s[i] != '}'
  }

  /** `template.format(git_id=value)`: "{git_id}" becomes the value, "{{" and
      "}}" become single braces; every other use of a brace raises (a
      KeyError for another name, an IndexError for a positional field, a
      ValueError for an unmatched brace). */
  function Format(template: string, value: string): Result<string>
    decreases |template|
  {
    if template == [] then Ok([])
    else if template[0] == '{' then
      if |template| >= 2 && template[1] == '{' then Prepend("{", Format(template[2..], value))
      else if StartsWith(template, Placeholder) then Prepend(value, Format(template[|Placeholder|..], value))
      else Err("format error")
    else if template[0] == '}' then
      if |template| >= 2 && template[1] == '}' then Prepend("}", Format(template[2..], value))
      else Err("Single '}' encountered in format string")
    else Prepend([template[0]], Format(template[1..], value))
  }

  function Prepend(s: string, r: Result<string>): Result<string> {
    if r.Ok? then Ok(s + r.value) else r
  }

  /** Whether formatting fails depends on the template alone. */
  lemma {:induction false} FormatFailsAlike(template: string, a: string, b: string)
    ensures Format(template, a).Ok? <==> Format(template, b).Ok?
    decreases |template|
  {
    if template != [] {
      if template[0] == '{' {
        if |template| >= 2 && template[1] == '{' {
          FormatFailsAlike(template[2..], a, b);
        } else if StartsWith(template, Placeholder) {
          FormatFailsAlike(template[|Placeholder|..], a, b);
        }
      } else if template[0] == '}' {
        if |template| >= 2 && template[1] == '}' {
          FormatFailsAlike(template[2..], a, b);
        }
      } else {
        FormatFailsAlike(template[1..], a, b);
      }
    }
  }

  /** A template without braces is its own result. */
  lemma {:induction false} FormatBraceFree(s: string, value: string)
    requires BraceFree(s)
    ensures Format(s, value) == Ok(s)
    decreases |s|
  {
    if s != [] {
      FormatBraceFree(s[1..], value);
      assert [s[0]] + s[1..] == s;
    }
  }

  /** Text around the placeholder is kept and the placeholder is replaced by
      the value. */
  lemma {:induction false} FormatSubstitutes(a: string, b: string, value: string)
    requires BraceFree(a) && BraceFree(b)
    ensures Format(a + Placeholder + b, value) == Ok(a + value + b)
    decreases |a|
  {
    var s := a + Placeholder + b;
    if a == [] {
      assert s == Placeholder + b;
      assert s[0] == '{' && s[1] == 'g';
      assert StartsWith(s, Placeholder) by {
        assert s[..|Placeholder|] == Placeholder;
      }
      assert s[|Placeholder|..] == b;
      FormatBraceFree(b, value);
      assert a + value + b == value + b;
    } else {
      FormatSubstitutes(a[1..], b, value);
      assert s[1..] == a[1..] + Placeholder + b;
      assert [a[0]] + (a[1..] + value + b) == a + value + b;
    }
  }

  const IdColumn := "id"
  const GitIdColumn := "git_id"

  /** A student with a GitHub id, as both generators pass them on. */
  datatype Student = Student(id: string, gitId: string)

  /** The first row of the process list. */
  const Header: seq<string> := ["id", "repository_url"]

  /** t is the process list of the students: the header, then each
      student's id and filled-in template, in order. */
  predicate ListsStudents(t: seq<seq<string>>, students: seq<Student>, template: string) {
    && |t| == |students| + 1 && t[0] == Header
    && forall i :: 0 <= i < |students| ==> RowOf(t[i + 1], students[i], template)
  }

  /** A row of the process list for the student. */
  predicate RowOf(row: seq<string>, s: Student, template: string) {
    |row| == 2 && row[0] == s.id && Format(template, s.gitId) == Ok(row[1])
  }
}
