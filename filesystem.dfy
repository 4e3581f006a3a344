/** The filesystem as a finite map from paths to entries.  A path is the
    sequence of its components, relative to the working directory of the
    program that uses it.  The map need not be prefix-closed: a directory is
    an entry of its own, and a path exists exactly when it is a key. */
module FileSystem {
  import opened Strings
  import opened Wrappers

  type Path = seq<string>

  /** The four kinds of failure report the backend grader writes. */
  datatype FailureCategory = NoLanguage | CompilationFailure | RuntimeFailure | OtherFailure

  /** What a file holds, as far as the model cares. */
  datatype Body =
    | Blank                                              // an empty, touched file
    | Marker(passed: bool)                               // a "PASS: ..." / "FAIL: ..." line written by a grading script
    | Lines(lines: seq<string>)                          // a multi-line report
    | Table(rows: seq<seq<string>>)                      // a CSV file
    | PassReport(message: string)                        // the backend grader's pass report
    | FailReport(category: FailureCategory, message: string)  // the backend grader's fail report

  datatype Entry = Dir(mtime: int) | File(body: Body, mtime: int)

  type Files = map<Path, Entry>

  function Name(p: Path): string
    requires |p| > 0
  {
    p[|p| - 1]
  }

  /** `Path.parent`; the parent of the working directory is itself. */
  function Parent(p: Path): (r: Path)
    ensures p != [] ==> r + [Name(p)] == p
  {
    if p == [] then [] else p[..|p| - 1]
  }

  /** q is an entry directly inside dir. */
  predicate ChildOf(dir: Path, q: Path) {
    |q| == |dir| + 1 && q[..|dir|] == dir
  }

  /** q is an entry somewhere below dir. */
  predicate Below(dir: Path, q: Path) {
    |q| > |dir| && q[..|dir|] == dir
  }

  /** `dir.glob('*' + ext)`: the entries of dir whose name ends with ext. */
  function Glob(files: Files, dir: Path, ext: string): set<Path> {
    set q | q in files && ChildOf(dir, q) && EndsWith(Name(q), ext)
  }

  // `dir.glob('**' '/' '*' + ext)`: every entry below dir whose name ends with
  // ext, at any depth, the entries of dir itself included.
  function GlobRecursive(files: Files, dir: Path, ext: string): set<Path> {
    set q | q in files && Below(dir, q) && EndsWith(Name(q), ext)
  }

  lemma GlobWithinRecursive(files: Files, dir: Path, ext: string)
    ensures Glob(files, dir, ext) <= GlobRecursive(files, dir, ext)
  {
  }

  /** `dir.iterdir()` filtered by `is_dir()`: the names of the sub-directories of dir. */
  function SubdirNames(files: Files, dir: Path): set<string> {
    set q | q in files && ChildOf(dir, q) && files[q].Dir? :: Name(q)
  }

  lemma SubdirNamesExact(files: Files, dir: Path, n: string)
    ensures n in SubdirNames(files, dir) <==> dir + [n] in files && files[dir + [n]].Dir?
  {
    if dir + [n] in files && files[dir + [n]].Dir? {
      var q := dir + [n];
      assert ChildOf(dir, q) && Name(q) == n;
    }
    if n in SubdirNames(files, dir) {
      var q :| q in files && ChildOf(dir, q) && files[q].Dir? && Name(q) == n;
      assert q == q[..|dir|] + [q[|dir|]];
    }
  }

  /** `dir.mkdir(parents=True, exist_ok=True)`: every missing directory on
      the way to dir is created; None where one of them exists as a file. */
  function MadeDirs(files: Files, clock: int, dir: Path): Option<Files>
    decreases |dir|
  {
    if dir == [] then Some(files)
    else
      var up := MadeDirs(files, clock, Parent(dir));
      if up.None? then None
      else if dir in files then (if files[dir].Dir? then up else None)
      else Some(up.value[dir := Dir(clock)])
  }

  /** p is a non-empty prefix of dir: one of the directories on the way. */
  predicate OnTheWay(dir: Path, p: Path) {
    0 < |p| <= |dir| && dir[..|p|] == p
  }

  /** mkdir fails exactly when a directory on the way exists as a file;
      otherwise every one of them is a directory afterwards, every entry that
      existed is kept as it was, and nothing else is created. */
  lemma {:induction false} MadeDirsMeaning(files: Files, clock: int, dir: Path)
    ensures MadeDirs(files, clock, dir).Some? <==>
              forall p :: p in files && OnTheWay(dir, p) ==> files[p].Dir?
    ensures MadeDirs(files, clock, dir).Some? ==>
              var m := MadeDirs(files, clock, dir).value;
              && (forall p :: p in files ==> p in m && m[p] == files[p])
              && (forall p :: OnTheWay(dir, p) ==> p in m && m[p].Dir?)
              && (forall p :: p in m ==> p in files || OnTheWay(dir, p))
    decreases |dir|
  {
    if dir != [] {
      var up := Parent(dir);
      MadeDirsMeaning(files, clock, up);
      assert forall p :: OnTheWay(dir, p) <==> OnTheWay(up, p) || p == dir by {
        forall p
          ensures OnTheWay(dir, p) <==> OnTheWay(up, p) || p == dir
        {
          if OnTheWay(up, p) {
            assert dir[..|p|] == up[..|p|];
          }
          if OnTheWay(dir, p) && p != dir {
            assert |p| < |dir|;
            assert up[..|p|] == dir[..|p|];
          }
        }
      }
    }
  }

  /** A mutable filesystem.  Every file written is stamped with `clock`. */
  class Fs {
    var files: Files
    var clock: int

    constructor (files: Files, clock: int)
      ensures this.files == files && this.clock == clock
    {
      this.files := files;
      this.clock := clock;
    }

    predicate Exists(p: Path)
      reads this
    {
      p in files
    }

    /** `if p.exists(): p.unlink()`, and Java's `Files.deleteIfExists`. */
    method DeleteIfExists(p: Path)
      modifies this
      ensures files == old(files) - {p} && clock == old(clock)
    {
      if p in files {
        files := files - {p};
      }
    }

    /** `p.write_text(...)` or `open(p, 'w')`: creates or truncates. */
    method Write(p: Path, body: Body)
      modifies this
      ensures files == old(files)[p := File(body, old(clock))] && clock == old(clock)
    {
      files := files[p := File(body, clock)];
    }

    /** `p.touch()`: an existing file keeps its contents and gets a new mtime. */
    method Touch(p: Path)
      modifies this
      ensures p in old(files) && old(files)[p].File? ==>
                files == old(files)[p := File(old(files)[p].body, old(clock))]
      ensures !(p in old(files) && old(files)[p].File?) ==>
                files == old(files)[p := File(Blank, old(clock))]
      ensures clock == old(clock)
    {
      if p in files && files[p].File? {
        files := files[p := File(files[p].body, clock)];
      } else {
        files := files[p := File(Blank, clock)];
      }
    }

    /** `dir.mkdir(parents=True, exist_ok=True)`; false where it raises. */
    method MakeDirs(dir: Path) returns (ok: bool)
      modifies this
      ensures ok <==> MadeDirs(old(files), old(clock), dir).Some?
      ensures ok ==> files == MadeDirs(old(files), old(clock), dir).value
      ensures !ok ==> files == old(files)
      ensures clock == old(clock)
    {
      var made := MadeDirs(files, clock, dir);
      if made.None? {
        return false;
      }
      files := made.value;
      ok := true;
    }

    /** The files an external command created or overwrote. */
    method Apply(writes: Files)
      modifies this
      ensures files == old(files) + writes && clock == old(clock)
    {
      files := files + writes;
    }
  }
}

/** The outcome of an external command, as every component sees it: how it
    ended and which files it wrote while it ran. */
module Commands {
  import opened FileSystem

  datatype Status =
    | Exited(code: int, stdout: string, stderr: string)
    | TimedOut                  // `subprocess.TimeoutExpired` / `asyncio.TimeoutError`
    | Raised(error: string)     // any other exception, with its `str(e)`

  datatype Run = Run(status: Status, writes: Files)

  /** The command ran to completion with exit code 0. */
  predicate Succeeded(r: Run) {
    r.status.Exited? && r.status.code == 0
  }

  /** The command wrote none of the given paths. */
  predicate LeavesAlone(r: Run, paths: set<Path>) {
    forall p :: p in paths ==> p !in r.writes
  }
}
