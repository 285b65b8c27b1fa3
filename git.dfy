/** git.go: cloning a repository into a location and fetching a local
    repository. The operating system is a Host object: a file system (a map
    from path to entry), the log of git invocations issued so far, and what
    the model does not interpret (environment expansion, which paths cannot
    be examined or created, and the exit status of each git run). */
module Git {
  import opened Mgit

  datatype Entry = Dir | File

  /** An invocation of the git executable, with the working directory it runs in. */
  datatype Command =
    | GitClone(url: string, name: string, workDir: string)  // git clone <url> <name>
    | GitFetch(workDir: string)                             // git fetch

  /** What Cmd.Run reports about a finished process. */
  datatype Exit = Success | ExitError(reason: string)

  datatype Error =
    | StatError(path: string)                      // os.Stat failed, and not because the path is missing
    | NotADirectory(path: string)                  // the location path exists but is not a directory
    | CommandFailed(cmd: Command, reason: string)  // git exited with an error
    | StartFailed(cmd: Command)                    // the working directory could not be entered, so git never started

  /** A Go `error` result: nil, or an error. */
  datatype Outcome = Ok | Failed(err: Error)

  /** The parts of the host the model leaves uninterpreted. */
  datatype Env = Env(
    expandEnv: string -> string,   // os.ExpandEnv
    statDenied: set<string>,       // paths on which os.Stat fails for a reason other than absence
    mkdirDenied: set<string>,      // paths os.MkdirAll cannot create
    run: (Command, nat) -> Exit)   // exit status of the n-th git invocation

  /** The host's mutable part: the file system and the git invocations issued. */
  datatype HostState = HostState(fs: map<string, Entry>, log: seq<Command>)

  /** The result of one operation: the new host state and the returned error. */
  datatype Step = Step(state: HostState, outcome: Outcome)

  /** What os.Stat reports: absence, another error, or the entry found. */
  datatype StatResult = Missing | StatFailed | Found(entry: Entry)

  function StatOf(env: Env, fs: map<string, Entry>, path: string): StatResult
  {
    if path in env.statDenied then StatFailed
    else if path in fs then Found(fs[path])
    else Missing
  }

  /** path.Join for a directory and a plain name. */
  function Join(dir: string, name: string): string
  {
    dir + "/" + name
  }

  /** os.MkdirAll: the directory exists afterwards unless it cannot be created. */
  function AfterMkdirAll(env: Env, fs: map<string, Entry>, path: string): map<string, Entry>
  {
    if path in env.mkdirDenied then fs else fs[path := Dir]
  }

  /** The error Cmd.Run returns for an exit status. */
  function ExitOutcome(cmd: Command, exit: Exit): Outcome
  {
    match exit
    case Success => Ok
    case ExitError(reason) => Failed(CommandFailed(cmd, reason))
  }

  /** Running git with exec.Cmd.Run: when the working directory is not a
      directory, the process cannot start and nothing happens but the error.
      Otherwise git runs: the command is logged, its exit status comes from
      the environment, and a successful clone leaves the new directory
      behind. */
  function Exec(env: Env, s: HostState, cmd: Command): Step
  {
    if StatOf(env, s.fs, cmd.workDir) != Found(Dir) then Step(s, Failed(StartFailed(cmd)))
    else
      var exit := env.run(cmd, |s.log|);
      var fs := if exit.Success? && cmd.GitClone? then s.fs[Join(cmd.workDir, cmd.name) := Dir] else s.fs;
      Step(HostState(fs, s.log + [cmd]), ExitOutcome(cmd, exit))
  }

  /** Clone, once the location directory is known to be usable: nothing to do
      when `<dir>/<name>` is a directory, otherwise `git clone <url> <name>`
      in `dir`. */
  function CloneInto(env: Env, s: HostState, repo: RemoteRepo, dir: string): Step
  {
    if StatOf(env, s.fs, Join(dir, repo.name)) == Found(Dir) then Step(s, Ok)
    else Exec(env, s, GitClone(repo.url, repo.name, dir))
  }

  /** Clone as a function of the host state. */
  function CloneStep(env: Env, s: HostState, repo: RemoteRepo, location: Location): Step
  {
    var dir := env.expandEnv(location.directory);
    match StatOf(env, s.fs, dir)
    case StatFailed => Step(s, Failed(StatError(dir)))
    case Found(File) => Step(s, Failed(NotADirectory(dir)))
    case Found(Dir) => CloneInto(env, s, repo, dir)
    case Missing => CloneInto(env, HostState(AfterMkdirAll(env, s.fs, dir), s.log), repo, dir)
  }

  class Host {
    const env: Env
    var fs: map<string, Entry>
    var log: seq<Command>

    constructor (env: Env, fs: map<string, Entry>)
      ensures this.env == env && this.fs == fs && log == []
    {
      this.env := env;
      this.fs := fs;
      this.log := [];
    }

    function State(): HostState
      reads this
    {
      HostState(fs, log)
    }

    method Stat(path: string) returns (r: StatResult)
      ensures r == StatOf(env, fs, path)
    {
      if path in env.statDenied {
        r := StatFailed;
      } else if path in fs {
        r := Found(fs[path]);
      } else {
        r := Missing;
      }
    }

    method MkdirAll(path: string)
      modifies this`fs
      ensures fs == AfterMkdirAll(env, old(fs), path)
    {
      if path !in env.mkdirDenied {
        fs := fs[path := Dir];
      }
    }

    /** exec.Command(...).Run() */
    method Run(cmd: Command) returns (out: Outcome)
      modifies this
      ensures Step(State(), out) == Exec(env, old(State()), cmd)
    {
      var workDir := Stat(cmd.workDir);
      if workDir != Found(Dir) {
        return Failed(StartFailed(cmd));
      }
      var exit := env.run(cmd, |log|);
      log := log + [cmd];
      if exit.Success? && cmd.GitClone? {
        fs := fs[Join(cmd.workDir, cmd.name) := Dir];
      }
      out := ExitOutcome(cmd, exit);
    }

    /** Clone: make sure the location directory exists, skip repositories
        already present, and otherwise run `git clone`. */
    method Clone(repo: RemoteRepo, location: Location) returns (out: Outcome)
      modifies this
      ensures Step(State(), out) == CloneStep(env, old(State()), repo, location)
    {
      var fulldir := env.expandEnv(location.directory);
      var st := Stat(fulldir);
      match st {
        case StatFailed =>
          return Failed(StatError(fulldir));
        case Found(entry) =>
          if entry == File {
            return Failed(NotADirectory(fulldir));
          }
        case Missing =>
          MkdirAll(fulldir);  // its result is ignored
      }
      var target := Stat(Join(fulldir, repo.name));
      if target == Found(Dir) {
        return Ok;
      }
      out := Run(GitClone(repo.url, repo.name, fulldir));
    }

    /** Fetch: one `git fetch` in the repository's directory, which must be
        a directory for git to start. */
    method Fetch(repo: LocalRepo) returns (out: Outcome)
      modifies this
      ensures fs == old(fs)
      ensures var cmd := GitFetch(repo.directory);
        if StatOf(env, old(fs), repo.directory) == Found(Dir) then
          log == old(log) + [cmd] && out == ExitOutcome(cmd, env.run(cmd, |old(log)|))
        else
          log == old(log) && out == Failed(StartFailed(cmd))
    {
      out := Run(GitFetch(repo.directory));
    }
  }

  // ---------------------------------------------------------------------------
  // Properties of Clone

  /** A location directory that cannot be examined, or that is a file, makes
      Clone fail with that error and leaves the host exactly as it was: no
      directory is created and git is not run. Any other location lets Clone
      go on past the directory check. */
  lemma CloneLocationErrors(env: Env, s: HostState, repo: RemoteRepo, location: Location)
    ensures var dir := env.expandEnv(location.directory);
      var r := CloneStep(env, s, repo, location);
      && (StatOf(env, s.fs, dir) == StatFailed <==> r.outcome == Failed(StatError(dir)))
      && (StatOf(env, s.fs, dir) == Found(File) <==> r.outcome == Failed(NotADirectory(dir)))
      && (StatOf(env, s.fs, dir) in {StatFailed, Found(File)} ==> r.state == s)
  {
  }

  /** A missing location directory is created when it can be, and Clone
      then fails only when git fails. The failure to create it is not
      reported by os.MkdirAll; it surfaces when git cannot be started in the
      missing directory, and then nothing else changes. */
  lemma CloneCreatesMissingLocation(env: Env, s: HostState, repo: RemoteRepo, location: Location)
    requires StatOf(env, s.fs, env.expandEnv(location.directory)) == Missing
    ensures var dir := env.expandEnv(location.directory);
      var r := CloneStep(env, s, repo, location);
      && (dir !in env.mkdirDenied ==>
            && dir in r.state.fs && r.state.fs[dir] == Dir
            && (r.outcome.Failed? ==> r.outcome.err.CommandFailed?))
      && (dir in env.mkdirDenied ==>
            && r.state == s
            && (r.outcome.Failed? ==> r.outcome.err == StartFailed(GitClone(repo.url, repo.name, dir))))
  {
    var dir := env.expandEnv(location.directory);
    assert Join(dir, repo.name) != dir by {
      assert |Join(dir, repo.name)| > |dir|;
    }
  }

  /** Clone runs git exactly when the location directory is usable (present as
      a directory, or missing and creatable) and `<dir>/<name>` is not a
      directory; it then
      runs `git clone <url> <name>` in the expanded directory, once, and
      returns git's result unchanged. Otherwise no git command is issued. */
  lemma CloneRunsGitExactlyWhenNeeded(env: Env, s: HostState, repo: RemoteRepo, location: Location)
    ensures var dir := env.expandEnv(location.directory);
      var cmd := GitClone(repo.url, repo.name, dir);
      var r := CloneStep(env, s, repo, location);
      var runs := (StatOf(env, s.fs, dir) == Found(Dir) || (StatOf(env, s.fs, dir) == Missing && dir !in env.mkdirDenied))
                  && StatOf(env, s.fs, Join(dir, repo.name)) != Found(Dir);
      && (runs ==> r.state.log == s.log + [cmd] && r.outcome == ExitOutcome(cmd, env.run(cmd, |s.log|)))
      && (!runs ==> r.state.log == s.log)
  {
    var dir := env.expandEnv(location.directory);
    assert Join(dir, repo.name) != dir by {
      assert |Join(dir, repo.name)| > |dir|;
    }
  }

  /** When `<dir>/<name>` is already a directory, Clone succeeds without
      running git, whatever that directory holds. */
  lemma ClonePresentIsNoOp(env: Env, s: HostState, repo: RemoteRepo, location: Location)
    requires var dir := env.expandEnv(location.directory);
      StatOf(env, s.fs, dir) == Found(Dir) && StatOf(env, s.fs, Join(dir, repo.name)) == Found(Dir)
    ensures CloneStep(env, s, repo, location) == Step(s, Ok)
  {
  }

  /** Clone is idempotent: after a successful Clone, a second Clone of the same
      repository into the same location succeeds and changes nothing, so the
      pair is cloned at most once. (A target path on which os.Stat fails is
      never seen as present, so it is excluded.) */
  lemma CloneIdempotent(env: Env, s: HostState, repo: RemoteRepo, location: Location)
    requires Join(env.expandEnv(location.directory), repo.name) !in env.statDenied
    requires CloneStep(env, s, repo, location).outcome == Ok
    ensures var s1 := CloneStep(env, s, repo, location).state;
      CloneStep(env, s1, repo, location) == Step(s1, Ok)
  {
    var dir := env.expandEnv(location.directory);
    var target := Join(dir, repo.name);
    assert target != dir by {
      assert |target| > |dir|;
    }
    var s1 := CloneStep(env, s, repo, location).state;
    assert target in s1.fs && s1.fs[target] == Dir;
    match StatOf(env, s1.fs, dir)
    case Found(Dir) =>
    case Missing =>
      assert dir in env.mkdirDenied;
      assert AfterMkdirAll(env, s1.fs, dir) == s1.fs;
  }
}
