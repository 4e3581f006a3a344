/** backend/git_manager.py: `git pull` in every student's repository and a
    read-only status probe.  How each git command ends, and which files a
    pull writes, are inputs; a pull runs in its working copy and changes
    nothing outside it. */
module GitManager {
  import opened Wrappers
  import opened Strings
  import opened FileSystem
  import opened Commands

  /** The `{'success', 'message', 'error'}` dictionary of one pull. */
  datatype PullResult = PullResult(success: bool, message: string, error: string)

  /** What `pull_repository` reports, given whether the folder holds a `.git`
      entry and how `git pull` ended. */
  function PullOutcome(isRepo: bool, pull: Status, timeout: int): (r: PullResult)
    ensures r.success <==> isRepo && pull.Exited? && pull.code == 0
    ensures r.success ==> r.error == "" && r.message != ""
    ensures !r.success ==> r.message == "" && r.error != ""
    ensures isRepo && pull.Exited? && pull.code == 0 && Strip(pull.stdout) != "" ==> r.message == Strip(pull.stdout)
    ensures isRepo && pull.Exited? && pull.code != 0 && Strip(pull.stderr) != "" ==> r.error == Strip(pull.stderr)
  {
    if !isRepo then PullResult(false, "", "Not a git repository")
    else match pull
      case Exited(code, out, err) =>
        if code == 0 then PullResult(true, if Strip(out) != "" then Strip(out) else "Pull completed", "")
        else PullResult(false, "", if Strip(err) != "" then Strip(err) else "Git pull failed")
      case TimedOut => PullResult(false, "", "Git pull timeout (" + IntToString(timeout) + "s)")
      case Raised(e) => PullResult(false, "", "Unexpected error: " + e)
  }

  /** The writes of a command that lie inside dir. */
  function WithinDir(writes: Files, dir: Path): Files {
    map p | p in writes && Below(dir, p) :: writes[p]
  }

  /** The files after `pull_repository`: git runs only where there is a `.git`
      entry, and then changes files inside the working copy. */
  function Pulled(files: Files, repoPath: Path, pull: Run): Files {
    if repoPath + [".git"] in files then files + WithinDir(pull.writes, repoPath) else files
  }

  /** `pull_repository(student_id, repo_path)`. */
  method PullRepository(fs: Fs, repoPath: Path, pull: Run, timeout: int) returns (result: PullResult)
    modifies fs
    ensures result == PullOutcome(repoPath + [".git"] in old(fs.files), pull.status, timeout)
    ensures fs.files == Pulled(old(fs.files), repoPath, pull) && fs.clock == old(fs.clock)
  {
    result := PullResult(false, "", "");
    if repoPath + [".git"] !in fs.files {
      result := result.(error := "Not a git repository");
      return;
    }
    fs.Apply(WithinDir(pull.writes, repoPath));
    match pull.status {
      case Exited(code, out, err) =>
        var stdoutText := Strip(out);
        var stderrText := Strip(err);
        if code == 0 {
          result := result.(success := true, message := if stdoutText != "" then stdoutText else "Pull completed");
        } else {
          result := result.(error := if stderrText != "" then stderrText else "Git pull failed");
        }
      case TimedOut =>
        result := result.(error := "Git pull timeout (" + IntToString(timeout) + "s)");
      case Raised(e) =>
        result := result.(error := "Unexpected error: " + e);
    }
  }

  /** A successful pull adds exactly what git wrote inside the working copy,
      and a folder without `.git` is left as it was. */
  lemma PullChangesOnlyRepo(files: Files, repoPath: Path, pull: Run, timeout: int)
    ensures var after := Pulled(files, repoPath, pull);
            forall p :: !Below(repoPath, p) ==> (p in after <==> p in files) && (p in after ==> after[p] == files[p])
    ensures PullOutcome(repoPath + [".git"] in files, pull.status, timeout).success ==>
              forall p :: p in pull.writes && Below(repoPath, p) ==> Pulled(files, repoPath, pull)[p] == pull.writes[p]
    ensures repoPath + [".git"] !in files ==> Pulled(files, repoPath, pull) == files
  {
  }

  /** The students whose folder holds a `repo` entry. */
  function Tracked(files: Files): set<string> {
    set n | n in SubdirNames(files, ["students"]) && ["students", n, "repo"] in files
  }

  /** The result recorded for one student: a task that raised, or its pull. */
  function RecordedResult(files: Files, id: string, pull: Status, taskError: Option<string>, timeout: int): PullResult {
    if taskError.Some? then PullResult(false, "", "Task failed: " + taskError.value)
    else PullOutcome(["students", id, "repo", ".git"] in files, pull, timeout)
  }

  /** p lies inside the repository of a student in among, whose pull task ran
      git (no task error, a `.git` entry) and wrote p. */
  predicate PullWrote(files: Files, pulls: string -> Run, taskErrors: string -> Option<string>, among: set<string>, p: Path) {
    |p| > 3 && p[0] == "students" && p[2] == "repo" && p[1] in among
    && taskErrors(p[1]).None? && ["students", p[1], "repo", ".git"] in files && p in pulls(p[1]).writes
  }

  /** The files once the pulls of the students in among have run. */
  function PulledAmong(files: Files, pulls: string -> Run, taskErrors: string -> Option<string>, among: set<string>): Files {
    var written := set id, p | id in among && p in pulls(id).writes && PullWrote(files, pulls, taskErrors, among, p) :: p;
    map p | p in files.Keys + written :: if PullWrote(files, pulls, taskErrors, among, p) then pulls(p[1]).writes[p] else files[p]
  }

  /** Every file is kept unless a pull of among wrote it, and then holds what that pull wrote. */
  lemma PulledAmongMeaning(files: Files, pulls: string -> Run, taskErrors: string -> Option<string>, among: set<string>)
    ensures var r := PulledAmong(files, pulls, taskErrors, among);
            (forall p :: p in r <==> p in files || PullWrote(files, pulls, taskErrors, among, p))
            && forall p :: p in r ==> r[p] == if PullWrote(files, pulls, taskErrors, among, p) then pulls(p[1]).writes[p] else files[p]
  {
    var written := set id, p | id in among && p in pulls(id).writes && PullWrote(files, pulls, taskErrors, among, p) :: p;
    forall p | PullWrote(files, pulls, taskErrors, among, p) ensures p in written {
      var id := p[1];
      assert id in among && p in pulls(id).writes;
    }
  }

  /** The files after `update_all_repositories`. */
  function PulledFiles(files: Files, pulls: string -> Run, taskErrors: string -> Option<string>): Files {
    if ["students"] !in files then files else PulledAmong(files, pulls, taskErrors, Tracked(files))
  }

  lemma NoPullsYet(files: Files, pulls: string -> Run, taskErrors: string -> Option<string>)
    ensures PulledAmong(files, pulls, taskErrors, {}) == files
  {
    var r := PulledAmong(files, pulls, taskErrors, {});
    PulledAmongMeaning(files, pulls, taskErrors, {});
    assert forall p :: p in r <==> p in files;
  }

  lemma BelowRepo(id: string, p: Path)
    ensures Below(["students", id, "repo"], p) <==> |p| > 3 && p[0] == "students" && p[1] == id && p[2] == "repo"
  {
    if |p| > 3 && p[0] == "students" && p[1] == id && p[2] == "repo" {
      assert p[..3] == ["students", id, "repo"];
    }
  }

  /** A student's pull task sees that student's `.git` entry as it was before
      any pull: the other tasks write only inside their own repositories. */
  lemma OthersKeepGit(files: Files, pulls: string -> Run, taskErrors: string -> Option<string>, among: set<string>, id: string)
    requires id !in among
    ensures ["students", id, "repo", ".git"] in PulledAmong(files, pulls, taskErrors, among)
            <==> ["students", id, "repo", ".git"] in files
  {
    PulledAmongMeaning(files, pulls, taskErrors, among);
    assert !PullWrote(files, pulls, taskErrors, among, ["students", id, "repo", ".git"]);
  }

  /** Running one more student's pull task adds what its git wrote ... */
  lemma PullOneMore(files: Files, pulls: string -> Run, taskErrors: string -> Option<string>, among: set<string>, id: string)
    requires id !in among && taskErrors(id).None?
    ensures PulledAmong(files, pulls, taskErrors, among + {id})
            == Pulled(PulledAmong(files, pulls, taskErrors, among), ["students", id, "repo"], pulls(id))
  {
    var before := PulledAmong(files, pulls, taskErrors, among);
    var after := PulledAmong(files, pulls, taskErrors, among + {id});
    var repo := ["students", id, "repo"];
    PulledAmongMeaning(files, pulls, taskErrors, among);
    PulledAmongMeaning(files, pulls, taskErrors, among + {id});
    OthersKeepGit(files, pulls, taskErrors, among, id);
    assert repo + [".git"] == ["students", id, "repo", ".git"];
    var expected := Pulled(before, repo, pulls(id));
    forall p ensures (p in after <==> p in expected) && (p in after ==> after[p] == expected[p]) {
      BelowRepo(id, p);
    }
    assert after == expected;
  }

  /** ... and a task that raised adds nothing. */
  lemma FailedTaskWritesNothing(files: Files, pulls: string -> Run, taskErrors: string -> Option<string>, among: set<string>, id: string)
    requires taskErrors(id).Some?
    ensures PulledAmong(files, pulls, taskErrors, among + {id}) == PulledAmong(files, pulls, taskErrors, among)
  {
    var before := PulledAmong(files, pulls, taskErrors, among);
    var after := PulledAmong(files, pulls, taskErrors, among + {id});
    PulledAmongMeaning(files, pulls, taskErrors, among);
    PulledAmongMeaning(files, pulls, taskErrors, among + {id});
    forall p ensures (p in after <==> p in before) && (p in after ==> after[p] == before[p]) {
    }
    assert after == before;
  }

  /** `update_all_repositories`: one result per student folder with a `repo`
      entry; `taskErrors` stands for a task that raised instead of returning,
      and such a task's git writes nothing. */
  method UpdateAllRepositories(fs: Fs, pulls: string -> Run, taskErrors: string -> Option<string>, timeout: int)
    returns (results: map<string, PullResult>)
    modifies fs
    ensures ["students"] !in old(fs.files) ==> results == map[]
    ensures ["students"] in old(fs.files) ==>
              results.Keys == Tracked(old(fs.files))
              && forall id :: id in results ==>
                   results[id] == RecordedResult(old(fs.files), id, pulls(id).status, taskErrors(id), timeout)
    ensures fs.files == PulledFiles(old(fs.files), pulls, taskErrors) && fs.clock == old(fs.clock)
  {
    var studentsDir := ["students"];
    if studentsDir !in fs.files {
      return map[];
    }
    ghost var files := fs.files;
    var studentPaths := Tracked(fs.files);
    NoPullsYet(files, pulls, taskErrors);
    if studentPaths == {} {
      return map[];
    }
    results := PullAll(fs, studentPaths, pulls, taskErrors, timeout, files);
  }

  /** Every result is the one recorded for its student. */
  predicate AllRecorded(results: map<string, PullResult>, files: Files, pulls: string -> Run,
                        taskErrors: string -> Option<string>, timeout: int) {
    forall id :: id in results ==> results[id] == RecordedResult(files, id, pulls(id).status, taskErrors(id), timeout)
  }

  lemma RecordedOneMore(results: map<string, PullResult>, files: Files, pulls: string -> Run,
                        taskErrors: string -> Option<string>, timeout: int, id: string, outcome: PullResult)
    requires AllRecorded(results, files, pulls, taskErrors, timeout)
    requires outcome == RecordedResult(files, id, pulls(id).status, taskErrors(id), timeout)
    ensures AllRecorded(results[id := outcome], files, pulls, taskErrors, timeout)
  {
  }

  /** The pull tasks of the given students, in some order. */
  method PullAll(fs: Fs, studentPaths: set<string>, pulls: string -> Run, taskErrors: string -> Option<string>, timeout: int,
                 ghost files: Files)
    returns (results: map<string, PullResult>)
    requires fs.files == files
    modifies fs
    ensures results.Keys == studentPaths && AllRecorded(results, files, pulls, taskErrors, timeout)
    ensures fs.files == PulledAmong(files, pulls, taskErrors, studentPaths) && fs.clock == old(fs.clock)
  {
    NoPullsYet(files, pulls, taskErrors);
    results := map[];
    var pending := studentPaths;
    ghost var done: set<string> := {};
    while pending != {}
      invariant pending <= studentPaths
      invariant forall id :: id in done <==> id in studentPaths && id !in pending
      invariant forall id :: id in results <==> id in done
      invariant AllRecorded(results, files, pulls, taskErrors, timeout)
      invariant fs.files == PulledAmong(files, pulls, taskErrors, done)
      invariant fs.clock == old(fs.clock)
      decreases |pending|
    {
      var studentId :| studentId in pending;
      var outcome := PullTask(fs, studentId, pulls, taskErrors, timeout, files, done);
      RecordedOneMore(results, files, pulls, taskErrors, timeout, studentId, outcome);
      results := results[studentId := outcome];
      pending := pending - {studentId};
      done := done + {studentId};
    }
    assert done == studentPaths;
  }

  /** One task of `update_all_repositories`, run after the pulls of done. */
  method PullTask(fs: Fs, studentId: string, pulls: string -> Run, taskErrors: string -> Option<string>, timeout: int,
                  ghost files: Files, ghost done: set<string>)
    returns (outcome: PullResult)
    requires studentId !in done && fs.files == PulledAmong(files, pulls, taskErrors, done)
    modifies fs
    ensures outcome == RecordedResult(files, studentId, pulls(studentId).status, taskErrors(studentId), timeout)
    ensures fs.files == PulledAmong(files, pulls, taskErrors, done + {studentId}) && fs.clock == old(fs.clock)
  {
    var repoPath := ["students", studentId, "repo"];
    assert repoPath + [".git"] == ["students", studentId, "repo", ".git"];
    if taskErrors(studentId).Some? {
      FailedTaskWritesNothing(files, pulls, taskErrors, done, studentId);
      outcome := PullResult(false, "", "Task failed: " + taskErrors(studentId).value);
    } else {
      OthersKeepGit(files, pulls, taskErrors, done, studentId);
      PullOneMore(files, pulls, taskErrors, done, studentId);
      outcome := PullRepository(fs, repoPath, pulls(studentId), timeout);
    }
  }

  /** Every tracked student folder has the repository grading will look for. */
  lemma TrackedHaveRepo(files: Files, id: string)
    requires id in Tracked(files)
    ensures ["students", id, "repo"] in files && ["students", id] in files && files[["students", id]].Dir?
  {
    SubdirNamesExact(files, ["students"], id);
    assert ["students"] + [id] == ["students", id];
  }

  /** The `{'exists', 'is_git_repo', 'last_commit', 'has_changes'}` dictionary. */
  datatype RepoStatus = RepoStatus(repoExists: bool, isGitRepo: bool, lastCommit: Option<string>, hasChanges: bool)

  /** `check_repository_status`, given how `git log -1` and `git status
      --porcelain` end. */
  method CheckRepositoryStatus(files: Files, id: string, log: Status, porcelain: Status) returns (status: RepoStatus)
    ensures status.repoExists <==> ["students", id, "repo"] in files
    ensures status.isGitRepo <==> status.repoExists && ["students", id, "repo", ".git"] in files
    ensures status.lastCommit.Some? <==> status.isGitRepo && log.Exited? && log.code == 0
    ensures status.lastCommit.Some? ==> status.lastCommit.value == Strip(log.stdout)
    ensures status.hasChanges <==>
              status.isGitRepo && porcelain.Exited? && porcelain.code == 0
              && exists i :: 0 <= i < |porcelain.stdout| && !IsPySpace(porcelain.stdout[i])
  {
    var repoPath := ["students", id, "repo"];
    assert repoPath + [".git"] == ["students", id, "repo", ".git"];
    status := RepoStatus(false, false, None, false);
    if repoPath in files {
      status := status.(repoExists := true);
      if repoPath + [".git"] in files {
        status := status.(isGitRepo := true);
        if log.Exited? && log.code == 0 {
          status := status.(lastCommit := Some(Strip(log.stdout)));
        }
        if porcelain.Exited? && porcelain.code == 0 {
          StripEmptyIffBlank(porcelain.stdout);
          status := status.(hasChanges := Strip(porcelain.stdout) != "");
        }
      }
    }
  }
}
