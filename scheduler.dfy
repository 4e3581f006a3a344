/** backend/scheduler.py: keeps one state record per student, and in every
    monitoring cycle pulls every repository, grades the students whose pull
    succeeded, and broadcasts the states to the connected clients.  The clock,
    the outcomes of git and of the grading commands (with the files they
    write), and the websockets' failures are inputs. */
module Scheduler {
  import opened Wrappers
  import opened FileSystem
  import opened Commands
  import opened Grader
  import opened GitManager

  /** 'git_status': 'unknown', 'success' or 'failed'. */
  datatype GitState = GitUnknown | GitSuccess | GitFailed

  /** One entry of `student_states`. */
  datatype StudentState = StudentState(status: Verdict, lastUpdate: Option<int>, gitStatus: GitState,
                                       lastGitPull: Option<int>, week: int)

  /** A websocket, by identity. */
  type Connection = nat

  /** The state `initialize_student_states` records.  `status.get('last_modified',
      time.time())` finds the key present even when its value is None, so the
      last update is None when no report exists. */
  function InitialState(status: StudentStatus, week: int): StudentState {
    StudentState(status.result, status.lastModified, GitUnknown, None, week)
  }

  /** The update `set_current_week` applies: the git fields are kept. */
  function Rewound(st: StudentState, status: StudentStatus, week: int): StudentState {
    st.(status := status.result, lastUpdate := status.lastModified, week := week)
  }

  /** The git fields after a pull. */
  function AfterGit(st: StudentState, result: PullResult, now: int): StudentState {
    st.(gitStatus := if result.success then GitSuccess else GitFailed, lastGitPull := Some(now))
  }

  /** The grading fields after a grading task. */
  function AfterGrading(st: StudentState, v: Verdict, now: int, week: int): StudentState {
    st.(status := v, lastUpdate := Some(now), week := week)
  }

  /** `max(0, pull_interval - cycle_duration)`: never negative, and together
      with the cycle it fills the interval unless the cycle overran it. */
  function SleepTime(interval: int, duration: int): (r: int)
    ensures r >= 0
    ensures r == 0 <==> duration >= interval
    ensures r > 0 ==> duration + r == interval
  {
    if interval - duration > 0 then interval - duration else 0
  }

  /** The overrun warning is logged exactly when no sleep follows the cycle. */
  predicate Overran(interval: int, duration: int) {
    !(SleepTime(interval, duration) > 0)
  }

  /** The results `update_all_repositories` returns. */
  function GitResults(files: Files, pulls: string -> Run, taskErrors: string -> Option<string>, timeout: int): map<string, PullResult> {
    if ["students"] !in files then map[]
    else map id | id in Tracked(files) :: RecordedResult(files, id, pulls(id).status, taskErrors(id), timeout)
  }

  /** The students a cycle grades: pulled successfully and with a repository. */
  function ToGrade(files: Files, gitResults: map<string, PullResult>): set<string> {
    set id | id in gitResults && ShouldGrade(files, gitResults, id)
  }

  predicate ShouldGrade(files: Files, gitResults: map<string, PullResult>, id: string)
    requires id in gitResults
  {
    gitResults[id].success && RepoDir(id) in files
  }

  /** The repository check of a cycle, made after the pulls, never skips
      anyone: every pulled student has one. */
  lemma CycleGradesEveryPull(files: Files, pulls: string -> Run, taskErrors: string -> Option<string>, timeout: int)
    ensures var results := GitResults(files, pulls, taskErrors, timeout);
            ToGrade(PulledFiles(files, pulls, taskErrors), results) == set id | id in results && results[id].success
  {
    var results := GitResults(files, pulls, taskErrors, timeout);
    var pulled := PulledFiles(files, pulls, taskErrors);
    PulledAmongMeaning(files, pulls, taskErrors, Tracked(files));
    forall id | id in results && results[id].success ensures RepoDir(id) in pulled {
      TrackedHaveRepo(files, id);
    }
  }

  /** The environment of one grading task, with the scheduler's timeout. */
  function EnvFor(envs: string -> GradingEnv, id: string, timeout: int): GradingEnv {
    envs(id).(timeout := timeout)
  }

  /** Grades one student: the files afterwards and the verdict. */
  type Grading = (Files, string) -> (Files, Verdict)

  /** The students graded one after another in the given order. */
  function GradeFold(files: Files, order: seq<string>, grade: Grading): (r: (Files, map<string, Verdict>))
    ensures forall id :: id in r.1 <==> id in order
    decreases |order|
  {
    if order == [] then (files, map[])
    else
      var last := order[|order| - 1];
      var (f1, verdicts) := GradeFold(files, order[..|order| - 1], grade);
      var (f2, v) := grade(f1, last);
      assert forall id :: id in order <==> id in order[..|order| - 1] || id == last by {
        assert order == order[..|order| - 1] + [last];
      }
      (f2, verdicts[last := v])
  }

  /** grade_student with each student's environment and the scheduler's timeout. */
  ghost predicate GradesAs(grade: Grading, cfg: Config, envs: string -> GradingEnv, timeout: int, week: int, stamp: int) {
    forall f, id :: grade(f, id) == GradeSpec(f, cfg, EnvFor(envs, id, timeout), id, week, stamp)
  }

  /** The students graded by grade_student one after another in the given order. */
  function GradeInOrder(files: Files, cfg: Config, envs: string -> GradingEnv, timeout: int,
                        order: seq<string>, week: int, stamp: int): (Files, map<string, Verdict>)
  {
    GradeFold(files, order, (f: Files, id: string) => GradeSpec(f, cfg, EnvFor(envs, id, timeout), id, week, stamp))
  }

  /** The order lists every element of ids once. */
  ghost predicate Listing(order: seq<string>, ids: set<string>) {
    (forall i, j :: 0 <= i < j < |order| ==> order[i] != order[j])
    && (forall id :: id in order <==> id in ids)
  }

  /** The records after a set of grading tasks, each recording its verdict. */
  ghost predicate RecordsGrades(start: map<string, StudentState>, states: map<string, StudentState>,
                                graded: map<string, Verdict>, now: int, week: int) {
    states.Keys == start.Keys
    && forall id :: id in states ==>
         states[id] == if id in graded then AfterGrading(start[id], graded[id], now, week) else start[id]
  }

  /** One more grading task keeps RecordsGrades. */
  lemma RecordedGrade(start: map<string, StudentState>, before: map<string, StudentState>, after: map<string, StudentState>,
                      graded: map<string, Verdict>, id: string, v: Verdict, now: int, week: int)
    requires id !in graded && RecordsGrades(start, before, graded, now, week)
    requires after == if id in before then before[id := AfterGrading(before[id], v, now, week)] else before
    ensures RecordsGrades(start, after, graded[id := v], now, week)
  {
  }

  /** The record of one student after a cycle. */
  function CycleState(id: string, st: StudentState, gitResults: map<string, PullResult>, graded: map<string, Verdict>,
                      now: int, gradeTime: int, week: int): StudentState {
    var s1 := if id in gitResults then AfterGit(st, gitResults[id], now) else st;
    if id in graded then AfterGrading(s1, graded[id], gradeTime, week) else s1
  }

  /** The files of students other than those named are as they were. */
  ghost predicate ChangedOnlyFor(f1: Files, f2: Files, ids: seq<string>) {
    forall p :: !(|p| >= 2 && p[0] == "students" && p[1] in ids) ==> (p in f1 <==> p in f2) && (p in f1 ==> f1[p] == f2[p])
  }

  lemma UnderStudent(id: string, p: Path)
    ensures Under(["students", id], p) <==> |p| >= 2 && p[0] == "students" && p[1] == id
  {
    if |p| >= 2 && p[0] == "students" && p[1] == id {
      assert p[..2] == ["students", id];
    }
  }

  /** Reads one student's status, possibly rewriting that student's files. */
  type Reader = (Files, string) -> (Files, StudentStatus)

  /** The reads of students one after another in the given order. */
  function ReadFold(files: Files, order: seq<string>, read: Reader): (r: (Files, map<string, StudentStatus>))
    ensures forall id :: id in r.1 <==> id in order
    decreases |order|
  {
    if order == [] then (files, map[])
    else
      var last := order[|order| - 1];
      var (f1, statuses) := ReadFold(files, order[..|order| - 1], read);
      var (f2, st) := read(f1, last);
      assert forall id :: id in order <==> id in order[..|order| - 1] || id == last by {
        assert order == order[..|order| - 1] + [last];
      }
      (f2, statuses[last := st])
  }

  /** get_student_status, read one student after another. */
  function ReadInOrder(files: Files, cfg: Config, order: seq<string>, week: int): (Files, map<string, StudentStatus>) {
    ReadFold(files, order, (f: Files, id: string) => ReadStatus(f, cfg, id, week))
  }

  /** A read that looks only at and changes only the student's own folder. */
  ghost predicate LocalReader(read: Reader) {
    (forall f1: Files, f2: Files, id: string {:trigger read(f1, id), read(f2, id)} ::
       AgreeUnder(f1, f2, ["students", id]) ==>
         read(f1, id).1 == read(f2, id).1 && AgreeUnder(read(f1, id).0, read(f2, id).0, ["students", id]))
    && (forall f: Files, id: string :: AgreeOutside(read(f, id).0, f, ["students", id]))
  }

  /** Reading the statuses one after another is the same as reading each one
      alone: each student's status and files are those the student's own read
      gives, and no other student's files change. */
  lemma ReadInOrderIndependent(files: Files, cfg: Config, order: seq<string>, week: int)
    requires forall i, j :: 0 <= i < j < |order| ==> order[i] != order[j]
    ensures var (after, statuses) := ReadInOrder(files, cfg, order, week);
            (forall id :: id in order ==> statuses[id] == ReadStatus(files, cfg, id, week).1)
            && (forall id :: id in order ==> AgreeUnder(after, ReadStatus(files, cfg, id, week).0, ["students", id]))
            && ChangedOnlyFor(after, files, order)
  {
    var read := (f: Files, id: string) => ReadStatus(f, cfg, id, week);
    forall f1: Files, f2: Files, id: string | AgreeUnder(f1, f2, ["students", id])
      ensures read(f1, id).1 == read(f2, id).1 && AgreeUnder(read(f1, id).0, read(f2, id).0, ["students", id])
    {
      ReadStatusLocal(f1, f2, cfg, id, week);
    }
    forall f: Files, id: string ensures AgreeOutside(read(f, id).0, f, ["students", id]) {
      ReadStatusConfined(f, cfg, id, week);
    }
    FoldIndependent(files, order, read);
  }

  lemma {:induction false} FoldIndependent(files: Files, order: seq<string>, read: Reader)
    requires LocalReader(read)
    requires forall i, j :: 0 <= i < j < |order| ==> order[i] != order[j]
    ensures var (after, statuses) := ReadFold(files, order, read);
            (forall id :: id in order ==> statuses[id] == read(files, id).1)
            && (forall id :: id in order ==> AgreeUnder(after, read(files, id).0, ["students", id]))
            && ChangedOnlyFor(after, files, order)
    decreases |order|
  {
    if order == [] {
      return;
    }
    var prefix := order[..|order| - 1];
    var last := order[|order| - 1];
    assert order == prefix + [last];
    assert forall i, j :: 0 <= i < j < |prefix| ==> prefix[i] != prefix[j];
    FoldIndependent(files, prefix, read);
    var (f1, statuses) := ReadFold(files, prefix, read);
    assert last !in prefix;
    FoldStep(files, prefix, last, read, f1, statuses);
  }

  /** The inductive step of FoldIndependent. */
  lemma FoldStep(files: Files, prefix: seq<string>, last: string, read: Reader, f1: Files, statuses: map<string, StudentStatus>)
    requires LocalReader(read) && last !in prefix
    requires forall id :: id in prefix ==> id in statuses && statuses[id] == read(files, id).1
    requires forall id :: id in prefix ==> AgreeUnder(f1, read(files, id).0, ["students", id])
    requires ChangedOnlyFor(f1, files, prefix)
    ensures var (f2, st) := read(f1, last);
            (forall id :: id in prefix + [last] ==> statuses[last := st][id] == read(files, id).1)
            && (forall id :: id in prefix + [last] ==> AgreeUnder(f2, read(files, id).0, ["students", id]))
            && ChangedOnlyFor(f2, files, prefix + [last])
  {
    UnchangedStudent(f1, files, prefix, last);
    assert AgreeUnder(f1, files, ["students", last]);
    var f2 := read(f1, last).0;
    ReadStep(files, f1, f2, prefix, last, (id: string) => read(files, id).0);
  }

  /** A student not among those whose files changed has the files as before. */
  lemma UnchangedStudent(f1: Files, f2: Files, ids: seq<string>, id: string)
    requires ChangedOnlyFor(f1, f2, ids) && id !in ids
    ensures AgreeUnder(f1, f2, ["students", id])
  {
    forall p | Under(["students", id], p) ensures (p in f1 <==> p in f2) && (p in f1 ==> f1[p] == f2[p]) {
      UnderStudent(id, p);
    }
  }

  /** The frame step of ReadInOrderIndependent, with each student's own read
      given as `alone`. */
  lemma ReadStep(files: Files, f1: Files, f2: Files, done: seq<string>, id: string, alone: string -> Files)
    requires id !in done
    requires ChangedOnlyFor(f1, files, done)
    requires forall x :: x in done ==> AgreeUnder(f1, alone(x), ["students", x])
    requires AgreeUnder(f2, alone(id), ["students", id])
    requires AgreeOutside(f2, f1, ["students", id])
    ensures ChangedOnlyFor(f2, files, done + [id])
    ensures forall x :: x in done + [id] ==> AgreeUnder(f2, alone(x), ["students", x])
  {
    forall x | x in done ensures AgreeUnder(f2, alone(x), ["students", x]) {
      OthersUnchanged(f2, f1, id, x);
    }
    forall p | !(|p| >= 2 && p[0] == "students" && p[1] in done + [id])
      ensures (p in f2 <==> p in files) && (p in f2 ==> f2[p] == files[p])
    {
      UnderStudent(id, p);
    }
  }

  lemma OthersUnchanged(f1: Files, f2: Files, id: string, other: string)
    requires AgreeOutside(f1, f2, ["students", id]) && id != other
    ensures AgreeUnder(f1, f2, ["students", other])
  {
    forall p | Under(["students", other], p) ensures !Under(["students", id], p) {
      OtherStudent(id, other, p);
    }
  }

  /** The files and the fresh records after reading the statuses in the given order. */
  predicate InitialStates(files: Files, cfg: Config, order: seq<string>, week: int,
                          after: Files, states: map<string, StudentState>)
  {
    var (f, statuses) := ReadInOrder(files, cfg, order, week);
    after == f && forall id :: id in order ==> id in states && states[id] == InitialState(statuses[id], week)
  }

  /** The files and the records after re-reading the statuses for a new week. */
  predicate RewoundStates(files: Files, cfg: Config, order: seq<string>, week: int,
                          before: map<string, StudentState>, after: Files, states: map<string, StudentState>)
  {
    var (f, statuses) := ReadInOrder(files, cfg, order, week);
    after == f && forall id :: id in order ==> id in before && id in states && states[id] == Rewound(before[id], statuses[id], week)
  }

  /** The records `initialize_student_states` and `set_current_week` write are
      those of each student's own status. */
  lemma RecordsReadAlone(files: Files, cfg: Config, order: seq<string>, week: int,
                         before: map<string, StudentState>, after: Files, states: map<string, StudentState>)
    requires forall i, j :: 0 <= i < j < |order| ==> order[i] != order[j]
    ensures InitialStates(files, cfg, order, week, after, states) ==>
              forall id :: id in order ==> states[id] == InitialState(ReadStatus(files, cfg, id, week).1, week)
    ensures RewoundStates(files, cfg, order, week, before, after, states) ==>
              forall id :: id in order ==> states[id] == Rewound(before[id], ReadStatus(files, cfg, id, week).1, week)
  {
    ReadInOrderIndependent(files, cfg, order, week);
  }

  /** The loop that `initialize_student_states` and `set_current_week` run
      over the students, in some order. */
  method ReadStatuses(fs: Fs, cfg: Config, ids: set<string>, week: int)
    returns (ghost order: seq<string>, statuses: map<string, StudentStatus>)
    modifies fs
    ensures Listing(order, ids)
    ensures (fs.files, statuses) == ReadInOrder(old(fs.files), cfg, order, week)
    ensures fs.clock == old(fs.clock)
  {
    order := [];
    statuses := map[];
    var pending := ids;
    while pending != {}
      invariant pending <= ids
      invariant forall id :: id in order <==> id in ids && id !in pending
      invariant forall i, j :: 0 <= i < j < |order| ==> order[i] != order[j]
      invariant (fs.files, statuses) == ReadInOrder(old(fs.files), cfg, order, week)
      invariant fs.clock == old(fs.clock)
      decreases |pending|
    {
      var id :| id in pending;
      var status := GetStudentStatus(fs, cfg, id, week);
      ghost var next := order + [id];
      assert next[..|next| - 1] == order;
      statuses := statuses[id := status];
      order := next;
      pending := pending - {id};
    }
  }

  /** In each state the numbers of passed, failed and unknown students add up
      to the number of students, which is how the cycle's log line counts the
      unknown ones. */
  function CountStatus(states: map<string, StudentState>, v: Verdict): nat {
    |StatusSet(states, v)|
  }

  function StatusSet(states: map<string, StudentState>, v: Verdict): set<string> {
    set id | id in states && states[id].status == v
  }

  lemma CountsPartition(states: map<string, StudentState>)
    ensures CountStatus(states, Pass) + CountStatus(states, Fail) + CountStatus(states, Unknown) == |states|
  {
    var p := StatusSet(states, Pass);
    var f := StatusSet(states, Fail);
    var u := StatusSet(states, Unknown);
    assert p + f + u == states.Keys by {
      forall id | id in states ensures id in p + f + u {
        match states[id].status
        case Pass => assert id in p;
        case Fail => assert id in f;
        case Unknown => assert id in u;
      }
    }
    DisjointUnion(p, f);
    DisjointUnion(p + f, u);
  }

  lemma DisjointUnion(a: set<string>, b: set<string>)
    requires a * b == {}
    ensures |a + b| == |a| + |b|
  {
  }

  /** Where an exception ends a cycle: nowhere; while listing the students
      to pull, before anything changed; or while broadcasting, after the records
      were updated and before any failed connection was dropped. */
  datatype Escape = Completes | RaisesBeforePulls | RaisesInBroadcast

  /** One monitoring cycle, as the inputs shape it. */
  datatype Cycle = Cycle(pulls: string -> Run, taskErrors: string -> Option<string>, envs: string -> GradingEnv,
                         now: int, gradeTime: int, duration: int, escape: Escape,
                         failingSockets: set<Connection>, stopRequested: bool)

  /** How long the loop sleeps after a cycle: 10 seconds after an error. */
  function CycleSleep(c: Cycle, interval: int): int {
    if c.escape != Completes then 10 else SleepTime(interval, c.duration)
  }

  /** What the monitoring loop changes: the files, the records and the connections. */
  datatype Snapshot = Snapshot(files: Files, states: map<string, StudentState>, connections: set<Connection>)

  /** The number of cycles the loop runs: up to and including the first one
      during which `stop` is called. */
  function CyclesRun(cycles: seq<Cycle>): (n: nat)
    ensures n <= |cycles|
    ensures forall k :: 0 <= k < n - 1 ==> !cycles[k].stopRequested
    ensures n < |cycles| ==> n > 0 && cycles[n - 1].stopRequested
    decreases |cycles|
  {
    if cycles == [] then 0
    else if cycles[0].stopRequested then 1
    else 1 + CyclesRun(cycles[1..])
  }

  class GradingScheduler {
    var studentStates: map<string, StudentState>
    var running: bool
    var currentWeek: int
    var connections: set<Connection>
    const grader: Config
    const availableWeeks: seq<int>
    const pullInterval: int
    const gitTimeout: int
    const gradingTimeout: int

    /** `__init__`: a configured value, or its default. */
    constructor (grader: Config, currentWeek: Option<int>, availableWeeks: Option<seq<int>>,
                 pullInterval: Option<int>, gitTimeout: Option<int>, gradingTimeout: Option<int>)
      ensures studentStates == map[] && !running && connections == {}
      ensures this.grader == grader
      ensures this.currentWeek == if currentWeek.Some? then currentWeek.value else 1
      ensures this.availableWeeks == if availableWeeks.Some? then availableWeeks.value else [1]
      ensures this.pullInterval == if pullInterval.Some? then pullInterval.value else 60
      ensures this.gitTimeout == if gitTimeout.Some? then gitTimeout.value else 30
      ensures this.gradingTimeout == if gradingTimeout.Some? then gradingTimeout.value else 30
    {
      this.grader := grader;
      this.availableWeeks := if availableWeeks.Some? then availableWeeks.value else [1];
      this.pullInterval := if pullInterval.Some? then pullInterval.value else 60;
      this.gitTimeout := if gitTimeout.Some? then gitTimeout.value else 30;
      this.gradingTimeout := if gradingTimeout.Some? then gradingTimeout.value else 30;
      studentStates := map[];
      running := false;
      this.currentWeek := if currentWeek.Some? then currentWeek.value else 1;
      connections := {};
    }

    /** `initialize_student_states`: one fresh record per student folder. */
    method InitializeStudentStates(fs: Fs)
      modifies this, fs
      ensures ["students"] !in old(fs.files) ==> studentStates == old(studentStates) && fs.files == old(fs.files)
      ensures ["students"] in old(fs.files) ==>
                var ids := SubdirNames(old(fs.files), ["students"]);
                studentStates.Keys == old(studentStates).Keys + ids
                && (forall id :: id in studentStates && id !in ids ==> studentStates[id] == old(studentStates)[id])
                && exists order :: Listing(order, ids) && InitialStates(old(fs.files), grader, order, currentWeek, fs.files, studentStates)
      ensures running == old(running) && currentWeek == old(currentWeek) && connections == old(connections)
      ensures fs.clock == old(fs.clock)
    {
      if ["students"] !in fs.files {
        return;
      }
      var ids := SubdirNames(fs.files, ["students"]);
      ghost var order;
      var statuses;
      order, statuses := ReadStatuses(fs, grader, ids, currentWeek);
      studentStates := studentStates + map id | id in ids :: InitialState(statuses[id], currentWeek);
    }

    /** `set_current_week`: refused (the source raises) unless the week is
        available; otherwise every known student's record is re-read for the
        new week. */
    method SetCurrentWeek(fs: Fs, week: int) returns (ok: bool)
      modifies this, fs
      ensures ok <==> week in availableWeeks
      ensures !ok ==> studentStates == old(studentStates) && currentWeek == old(currentWeek) && fs.files == old(fs.files)
      ensures ok ==>
                currentWeek == week
                && studentStates.Keys == old(studentStates).Keys
                && exists order :: Listing(order, old(studentStates).Keys)
                     && RewoundStates(old(fs.files), grader, order, week, old(studentStates), fs.files, studentStates)
      ensures running == old(running) && connections == old(connections)
      ensures fs.clock == old(fs.clock)
    {
      if week !in availableWeeks {
        return false;
      }
      currentWeek := week;
      ghost var order;
      var statuses;
      order, statuses := ReadStatuses(fs, grader, studentStates.Keys, week);
      studentStates := map id | id in studentStates :: Rewound(studentStates[id], statuses[id], week);
      ok := true;
    }

    /** `get_current_states`: a copy of the records. */
    method GetCurrentStates() returns (states: map<string, StudentState>)
      ensures states == studentStates
    {
      states := studentStates;
    }

    method GetCurrentWeek() returns (week: int)
      ensures week == currentWeek
    {
      week := currentWeek;
    }

    method GetAvailableWeeks() returns (weeks: seq<int>)
      ensures weeks == availableWeeks
    {
      weeks := availableWeeks;
    }

    method AddWebsocketConnection(ws: Connection)
      modifies this
      ensures connections == old(connections) + {ws}
      ensures studentStates == old(studentStates) && running == old(running) && currentWeek == old(currentWeek)
    {
      connections := connections + {ws};
    }

    /** `discard`: removing an unknown connection is not an error. */
    method RemoveWebsocketConnection(ws: Connection)
      modifies this
      ensures connections == old(connections) - {ws}
      ensures studentStates == old(studentStates) && running == old(running) && currentWeek == old(currentWeek)
    {
      connections := connections - {ws};
    }

    /** `broadcast_updates`: every connection is sent the records; those whose
        send raises are dropped afterwards. */
    method BroadcastUpdates(failing: set<Connection>) returns (message: map<string, StudentState>, sentTo: set<Connection>)
      modifies this
      ensures old(connections) == {} ==> sentTo == {} && connections == {}
      ensures old(connections) != {} ==> sentTo == old(connections) && message == studentStates
      ensures connections == old(connections) - failing
      ensures studentStates == old(studentStates) && running == old(running) && currentWeek == old(currentWeek)
    {
      if connections == {} {
        return map[], {};
      }
      message := studentStates;
      var connectionsToRemove: set<Connection> := {};
      sentTo := {};
      var pending := connections;
      while pending != {}
        invariant forall c :: c in sentTo <==> c in connections && c !in pending
        invariant pending <= connections
        invariant forall c :: c in connectionsToRemove <==> c in sentTo && c in failing
        invariant connections == old(connections) && studentStates == old(studentStates)
        invariant running == old(running) && currentWeek == old(currentWeek)
        decreases |pending|
      {
        var websocket :| websocket in pending;
        sentTo := sentTo + {websocket};
        if websocket in failing {
          connectionsToRemove := connectionsToRemove + {websocket};
        }
        pending := pending - {websocket};
      }
      var toDrop := connectionsToRemove;
      while toDrop != {}
        invariant toDrop <= connectionsToRemove
        invariant forall c :: c in connections <==> c in old(connections) && (c !in connectionsToRemove || c in toDrop)
        invariant studentStates == old(studentStates) && running == old(running) && currentWeek == old(currentWeek)
        decreases |toDrop|
      {
        var websocket :| websocket in toDrop;
        connections := connections - {websocket};
        toDrop := toDrop - {websocket};
      }
    }

    /** `stop`. */
    method Stop()
      modifies this
      ensures !running
      ensures studentStates == old(studentStates) && currentWeek == old(currentWeek) && connections == old(connections)
    {
      running := false;
    }

    /** `shutdown`: stops, closes every connection (ignoring failures) and forgets them. */
    method Shutdown() returns (closed: set<Connection>)
      modifies this
      ensures !running && connections == {} && closed == old(connections)
      ensures studentStates == old(studentStates) && currentWeek == old(currentWeek)
    {
      Stop();
      var pending := connections;
      closed := {};
      while pending != {}
        invariant closed == old(connections) - pending
        invariant pending <= old(connections)
        decreases |pending|
      {
        var websocket :| websocket in pending;
        closed := closed + {websocket};
        pending := pending - {websocket};
      }
      connections := {};
    }

    /** `_run_monitoring_cycle`: pull every repository, record the git outcome
        of the known students, then grade every student whose pull succeeded on
        the files as the pulls left them, in some order (the source runs them
        concurrently), and record the verdicts of the known ones. */
    method RunMonitoringCycle(fs: Fs, pulls: string -> Run, taskErrors: string -> Option<string>,
                              envs: string -> GradingEnv, now: int, gradeTime: int)
      returns (gitResults: map<string, PullResult>, graded: map<string, Verdict>, ghost order: seq<string>)
      modifies this, fs
      ensures gitResults == GitResults(old(fs.files), pulls, taskErrors, gitTimeout)
      ensures graded.Keys == ToGrade(PulledFiles(old(fs.files), pulls, taskErrors), gitResults)
      ensures Listing(order, graded.Keys)
      ensures (fs.files, graded) == GradeInOrder(PulledFiles(old(fs.files), pulls, taskErrors), grader, envs, gradingTimeout,
                                                 order, currentWeek, old(fs.clock))
      ensures studentStates.Keys == old(studentStates).Keys
      ensures forall id :: id in studentStates ==>
                studentStates[id] == CycleState(id, old(studentStates)[id], gitResults, graded, now, gradeTime, currentWeek)
      ensures running == old(running) && currentWeek == old(currentWeek) && connections == old(connections)
      ensures fs.clock == old(fs.clock)
    {
      gitResults := UpdateAllRepositories(fs, pulls, taskErrors, gitTimeout);
      var toGrade := RecordPulls(fs.files, gitResults, now);
      ghost var week, stamp := currentWeek, fs.clock;
      ghost var grade: Grading := (f: Files, id: string) => GradeSpec(f, grader, EnvFor(envs, id, gradingTimeout), id, week, stamp);
      order, graded := GradeAll(fs, toGrade, envs, gradeTime, grade);
    }

    /** The first loop of `_run_monitoring_cycle`: the git fields of the known
        students, and the students to grade. */
    method RecordPulls(files: Files, gitResults: map<string, PullResult>, now: int) returns (toGrade: set<string>)
      modifies this
      ensures toGrade == ToGrade(files, gitResults)
      ensures studentStates.Keys == old(studentStates).Keys
      ensures forall id :: id in studentStates ==>
                studentStates[id] == if id in gitResults then AfterGit(old(studentStates)[id], gitResults[id], now) else old(studentStates)[id]
      ensures running == old(running) && currentWeek == old(currentWeek) && connections == old(connections)
    {
      toGrade := {};
      var pending := gitResults.Keys;
      while pending != {}
        invariant pending <= gitResults.Keys
        invariant forall id :: id in toGrade <==> id in gitResults && id !in pending && ShouldGrade(files, gitResults, id)
        invariant studentStates.Keys == old(studentStates).Keys
        invariant forall id :: id in studentStates ==>
                    studentStates[id] == if id in gitResults && id !in pending then AfterGit(old(studentStates)[id], gitResults[id], now)
                                         else old(studentStates)[id]
        invariant running == old(running) && currentWeek == old(currentWeek) && connections == old(connections)
        decreases |pending|
      {
        var studentId :| studentId in pending;
        if studentId in studentStates {
          studentStates := studentStates[studentId := AfterGit(studentStates[studentId], gitResults[studentId], now)];
        }
        if gitResults[studentId].success {
          var repoDir := ["students", studentId, "repo"];
          if repoDir in files {
            toGrade := toGrade + {studentId};
          }
        }
        pending := pending - {studentId};
      }
    }

    /** The grading tasks of one cycle, one after another in the order returned;
        `grade` stands for grade_student as each grading coroutine calls it. */
    method GradeAll(fs: Fs, toGrade: set<string>, envs: string -> GradingEnv, gradeTime: int, ghost grade: Grading)
      returns (ghost order: seq<string>, graded: map<string, Verdict>)
      requires GradesAs(grade, grader, envs, gradingTimeout, currentWeek, fs.clock)
      modifies this, fs
      ensures graded.Keys == toGrade && Listing(order, toGrade)
      ensures (fs.files, graded) == GradeFold(old(fs.files), order, grade)
      ensures RecordsGrades(old(studentStates), studentStates, graded, gradeTime, currentWeek)
      ensures running == old(running) && currentWeek == old(currentWeek) && connections == old(connections)
      ensures fs.clock == old(fs.clock)
    {
      order := [];
      graded := map[];
      var remaining := toGrade;
      while remaining != {}
        invariant remaining <= toGrade
        invariant graded.Keys == toGrade - remaining
        invariant Listing(order, graded.Keys)
        invariant (fs.files, graded) == GradeFold(old(fs.files), order, grade)
        invariant RecordsGrades(old(studentStates), studentStates, graded, gradeTime, currentWeek)
        invariant running == old(running) && currentWeek == old(currentWeek) && connections == old(connections)
        invariant fs.clock == old(fs.clock)
        decreases |remaining|
      {
        var studentId :| studentId in remaining;
        ghost var before := studentStates;
        var v := GradeStudentAsync(fs, studentId, currentWeek, gradeTime, envs, gradingTimeout, grade);
        RecordedGrade(old(studentStates), before, studentStates, graded, studentId, v, gradeTime, currentWeek);
        ghost var next := order + [studentId];
        assert next[..|next| - 1] == order;
        graded := graded[studentId := v];
        order := next;
        remaining := remaining - {studentId};
      }
    }

    /** `_grade_student_async`: grade one student and, when known, record the
        verdict.  The environment of the run is the student's own, with the
        given timeout; `grade` is the same grading, as a function. */
    method GradeStudentAsync(fs: Fs, studentId: string, week: int, now: int,
                             envs: string -> GradingEnv, timeout: int, ghost grade: Grading) returns (v: Verdict)
      requires GradesAs(grade, grader, envs, timeout, week, fs.clock)
      modifies this, fs
      ensures (fs.files, v) == grade(old(fs.files), studentId)
      ensures studentStates == if studentId in old(studentStates)
                               then old(studentStates)[studentId := AfterGrading(old(studentStates)[studentId], v, now, week)]
                               else old(studentStates)
      ensures running == old(running) && currentWeek == old(currentWeek) && connections == old(connections)
      ensures fs.clock == old(fs.clock)
    {
      v := GradeStudent(fs, grader, EnvFor(envs, studentId, timeout), studentId, week);
      if studentId in studentStates {
        studentStates := studentStates[studentId := AfterGrading(studentStates[studentId], v, now, week)];
      }
    }

    /** The records `initialize_student_states` leaves, from s to t. */
    ghost predicate InitializedTo(week: int, s: Snapshot, t: Snapshot) {
      t.connections == s.connections
      && (["students"] !in s.files ==> t.states == s.states && t.files == s.files)
      && (["students"] in s.files ==>
            var ids := SubdirNames(s.files, ["students"]);
            t.states.Keys == s.states.Keys + ids
            && (forall id :: id in t.states && id !in ids ==> t.states[id] == s.states[id])
            && exists order :: Listing(order, ids) && InitialStates(s.files, grader, order, week, t.files, t.states))
    }

    /** One pass of the monitoring loop, from s to t: unless it raised before
        pulling, the pulls change the working copies, the students whose pull
        succeeded are graded in some order on the pulled files, every record is
        updated as in `_run_monitoring_cycle`, and a completed broadcast drops
        the connections whose send failed. */
    ghost predicate CycleOutcome(week: int, stamp: int, s: Snapshot, c: Cycle, t: Snapshot) {
      if c.escape == RaisesBeforePulls then t == s
      else
        var pulled := PulledFiles(s.files, c.pulls, c.taskErrors);
        var gitResults := GitResults(s.files, c.pulls, c.taskErrors, gitTimeout);
        t.states.Keys == s.states.Keys
        && t.connections == (if c.escape == Completes then s.connections - c.failingSockets else s.connections)
        && exists order :: Listing(order, ToGrade(pulled, gitResults)) && CycleGraded(week, stamp, s, c, pulled, gitResults, order, t)
    }

    /** The files and records after grading in the given order. */
    ghost predicate CycleGraded(week: int, stamp: int, s: Snapshot, c: Cycle, pulled: Files,
                                gitResults: map<string, PullResult>, order: seq<string>, t: Snapshot)
      requires t.states.Keys == s.states.Keys
    {
      var (f, graded) := GradeInOrder(pulled, grader, c.envs, gradingTimeout, order, week, stamp);
      t.files == f
      && forall id :: id in t.states ==>
           t.states[id] == CycleState(id, s.states[id], gitResults, graded, c.now, c.gradeTime, week)
    }

    /** Each snapshot follows from the one before by the matching cycle. */
    ghost predicate Monitors(week: int, stamp: int, trace: seq<Snapshot>, cycles: seq<Cycle>) {
      |trace| == |cycles| + 1
      && forall k :: 0 <= k < |cycles| ==> CycleOutcome(week, stamp, trace[k], cycles[k], trace[k + 1])
    }

    lemma MonitorsExtend(week: int, stamp: int, trace: seq<Snapshot>, cycles: seq<Cycle>, i: nat, next: Snapshot)
      requires i < |cycles| && Monitors(week, stamp, trace, cycles[..i])
      requires CycleOutcome(week, stamp, trace[i], cycles[i], next)
      ensures Monitors(week, stamp, trace + [next], cycles[..i + 1])
    {
      var t, cs := trace + [next], cycles[..i + 1];
      forall k | 0 <= k < |cs| ensures CycleOutcome(week, stamp, t[k], cs[k], t[k + 1]) {
        if k < i {
          assert cs[k] == cycles[..i][k] && t[k] == trace[k] && t[k + 1] == trace[k + 1];
        }
      }
    }

    /** `start_monitoring`: initialise, then run cycles until `stop` is called.
        Each cycle is followed by the sleep the interval leaves, or by 10
        seconds when the cycle raised.  `trace` holds the files, records and
        connections after initialising and after each cycle. */
    method StartMonitoring(fs: Fs, cycles: seq<Cycle>) returns (sleeps: seq<int>, ghost trace: seq<Snapshot>)
      modifies this, fs
      ensures |sleeps| == CyclesRun(cycles)
      ensures forall k :: 0 <= k < |sleeps| ==> sleeps[k] == CycleSleep(cycles[k], pullInterval)
      ensures running <==> forall k :: 0 <= k < |sleeps| ==> !cycles[k].stopRequested
      ensures currentWeek == old(currentWeek) && fs.clock == old(fs.clock)
      ensures Monitors(currentWeek, fs.clock, trace, cycles[..|sleeps|])
      ensures InitializedTo(currentWeek, Snapshot(old(fs.files), old(studentStates), old(connections)), trace[0])
      ensures trace[|sleeps|] == Snapshot(fs.files, studentStates, connections)
    {
      running := true;
      InitializeStudentStates(fs);
      ghost var first := Snapshot(fs.files, studentStates, connections);
      assert InitializedTo(currentWeek, Snapshot(old(fs.files), old(studentStates), old(connections)), first);
      trace := [first];
      sleeps := [];
      var i := 0;
      while running && i < |cycles|
        invariant 0 <= i <= |cycles|
        invariant |sleeps| == i
        invariant forall k :: 0 <= k < i ==> sleeps[k] == CycleSleep(cycles[k], pullInterval)
        invariant running <==> forall k :: 0 <= k < i ==> !cycles[k].stopRequested
        invariant running ==> i <= CyclesRun(cycles)
        invariant !running ==> i == CyclesRun(cycles)
        invariant currentWeek == old(currentWeek) && fs.clock == old(fs.clock)
        invariant Monitors(currentWeek, fs.clock, trace, cycles[..i])
        invariant trace[0] == first
        invariant trace[i] == Snapshot(fs.files, studentStates, connections)
        decreases |cycles| - i
      {
        var c := cycles[i];
        RunCycle(fs, c, trace[i]);
        MonitorsExtend(currentWeek, fs.clock, trace, cycles, i, Snapshot(fs.files, studentStates, connections));
        trace := trace + [Snapshot(fs.files, studentStates, connections)];
        sleeps := sleeps + [CycleSleep(c, pullInterval)];
        if c.stopRequested {
          Stop();
        }
        CyclesRunPrefix(cycles, i);
        i := i + 1;
      }
    }

    /** The body of the monitoring loop's `try`, or its `except` when the cycle raises. */
    method RunCycle(fs: Fs, c: Cycle, ghost s: Snapshot)
      requires s == Snapshot(fs.files, studentStates, connections)
      modifies this, fs
      ensures CycleOutcome(currentWeek, fs.clock, s, c, Snapshot(fs.files, studentStates, connections))
      ensures running == old(running) && currentWeek == old(currentWeek) && fs.clock == old(fs.clock)
    {
      if c.escape == RaisesBeforePulls {
        return;
      }
      var gitResults, graded, order := RunMonitoringCycle(fs, c.pulls, c.taskErrors, c.envs, c.now, c.gradeTime);
      if c.escape == Completes {
        var message, sentTo := BroadcastUpdates(c.failingSockets);
      }
      // RaisesInBroadcast: the send loop raised before any connection was dropped.
      assert CycleGraded(currentWeek, fs.clock, s, c, PulledFiles(s.files, c.pulls, c.taskErrors),
                         GitResults(s.files, c.pulls, c.taskErrors, gitTimeout), order,
                         Snapshot(fs.files, studentStates, connections));
    }
  }

  /** CyclesRun stops at the first stop request and not before. */
  lemma {:induction false} CyclesRunPrefix(cycles: seq<Cycle>, i: nat)
    requires i < |cycles|
    requires forall k :: 0 <= k < i ==> !cycles[k].stopRequested
    ensures cycles[i].stopRequested ==> CyclesRun(cycles) == i + 1
    ensures !cycles[i].stopRequested ==> CyclesRun(cycles) >= i + 1
    decreases i
  {
    if i > 0 {
      assert !cycles[0].stopRequested;
      assert forall k :: 0 <= k < i - 1 ==> cycles[1..][k] == cycles[k + 1];
      CyclesRunPrefix(cycles[1..], i - 1);
    }
  }
}
