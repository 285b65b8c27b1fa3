/** main.go: the repository stream from the remote source is deduplicated by
    URL, and every repository is then offered to every configured location in
    order; each location that wants it gets a Clone, and the first Clone that
    fails ends the program. */
module Pipeline {
  import opened Mgit
  import opened Git
  import opened Github

  // ---------------------------------------------------------------------------
  // Deduplication

  /** The URLs of a sequence of repositories. */
  function Urls(s: seq<RemoteRepo>): set<string>
  {
    set r | r in s :: r.url
  }

  /** Whether s[i] is the first repository of s with its URL. */
  predicate IsFirst(s: seq<RemoteRepo>, i: nat)
    requires i < |s|
  {
    forall j | 0 <= j < i :: s[j].url != s[i].url
  }

  /** The first repository of each URL, in stream order. */
  function Deduplicated(s: seq<RemoteRepo>): seq<RemoteRepo>
  {
    if s == [] then []
    else
      var prefix := s[..|s| - 1];
      var last := s[|s| - 1];
      if last.url in Urls(prefix) then Deduplicated(prefix) else Deduplicated(prefix) + [last]
  }

  lemma UrlsAppend(s: seq<RemoteRepo>, r: RemoteRepo)
    ensures Urls(s + [r]) == Urls(s) + {r.url}
  {
    assert forall x | x in s + [r] :: x in s || x == r;
  }

  /** Nothing is lost: the deduplicated stream holds every URL of the input,
      and no other. */
  lemma {:induction false} DeduplicatedUrls(s: seq<RemoteRepo>)
    ensures Urls(Deduplicated(s)) == Urls(s)
  {
    if s != [] {
      var prefix := s[..|s| - 1];
      DeduplicatedUrls(prefix);
      assert s == prefix + [s[|s| - 1]];
      UrlsAppend(prefix, s[|s| - 1]);
      UrlsAppend(Deduplicated(prefix), s[|s| - 1]);
    }
  }

  /** No two repositories of the deduplicated stream share a URL. */
  lemma {:induction false} DeduplicatedDistinct(s: seq<RemoteRepo>)
    ensures var d := Deduplicated(s);
      forall i, j | 0 <= i < j < |d| :: d[i].url != d[j].url
  {
    if s != [] {
      var prefix := s[..|s| - 1];
      DeduplicatedDistinct(prefix);
      DeduplicatedUrls(prefix);
      var d := Deduplicated(prefix);
      if s[|s| - 1].url !in Urls(prefix) {
        forall i | 0 <= i < |d|
          ensures d[i].url != s[|s| - 1].url
        {
          assert d[i] in d;
        }
      }
    }
  }

  /** The deduplicated stream is exactly the subsequence of first occurrences:
      it lists, in their input order, the repositories that are the first of
      their URL, and no others (so the first of several repositories sharing a
      URL wins). `idx` gives the input position of each output repository. */
  lemma {:induction false} DeduplicatedFirstOccurrences(s: seq<RemoteRepo>) returns (idx: seq<nat>)
    ensures var d := Deduplicated(s);
      && |idx| == |d|
      && (forall k | 0 <= k < |idx| :: idx[k] < |s| && d[k] == s[idx[k]] && IsFirst(s, idx[k]))
      && (forall k, l | 0 <= k < l < |idx| :: idx[k] < idx[l])
      && (forall i | 0 <= i < |s| && IsFirst(s, i) :: i in idx)
  {
    if s == [] {
      return [];
    }
    var n := |s| - 1;
    var prefix := s[..n];
    var last := s[n];
    assert s == prefix + [last];
    var pidx := DeduplicatedFirstOccurrences(prefix);
    forall i | 0 <= i < n
      ensures IsFirst(s, i) == IsFirst(prefix, i)
    {
    }
    if last.url in Urls(prefix) {
      idx := pidx;
      var j :| j in prefix && j.url == last.url;
      var w :| 0 <= w < n && prefix[w] == j;
      assert !IsFirst(s, n);
    } else {
      idx := pidx + [n];
      forall j | 0 <= j < n
        ensures s[j].url != last.url
      {
        assert prefix[j] in prefix;
      }
      assert IsFirst(s, n);
    }
  }

  /** One more repository of the input: it is kept exactly when its URL is new. */
  lemma DeduplicatedStep(s: seq<RemoteRepo>, i: nat)
    requires i < |s|
    ensures Urls(s[..i + 1]) == Urls(s[..i]) + {s[i].url}
    ensures Deduplicated(s[..i + 1])
         == if s[i].url in Urls(s[..i]) then Deduplicated(s[..i]) else Deduplicated(s[..i]) + [s[i]]
  {
    assert s[..i + 1] == s[..i] + [s[i]];
    assert s[..i + 1][..i] == s[..i];
    UrlsAppend(s[..i], s[i]);
  }

  /** The deduplicating stage of scaffold: a map from URL to "already sent",
      consulted for each incoming repository. */
  method Deduplicate(input: seq<RemoteRepo>) returns (deduped: seq<RemoteRepo>)
    ensures deduped == Deduplicated(input)
  {
    var seen: map<string, bool> := map[];
    deduped := [];
    for i := 0 to |input|
      invariant deduped == Deduplicated(input[..i])
      invariant seen.Keys == Urls(input[..i])
      invariant forall u | u in seen :: seen[u]
    {
      var repo := input[i];
      DeduplicatedStep(input, i);
      var found := repo.url in seen;
      var value := if found then seen[repo.url] else false;
      if !found || !value {
        deduped := deduped + [repo];
        seen := seen[repo.url := true];
      }
    }
    assert input[..|input|] == input;
  }

  /** scaffold: the remote listings, deduplicated by URL. A listing that panics
      ends the stream after what it has emitted. */
  method Scaffold(source: Source) returns (deduped: seq<RemoteRepo>, panicked: bool)
    requires ScaffoldTerminates(source)
    ensures deduped == Deduplicated(ScaffoldSpec(source).emitted)
    ensures panicked == ScaffoldSpec(source).panicked
  {
    var requests, emitted;
    requests, emitted, panicked := Github.Scaffold(source);
    deduped := Deduplicate(emitted);
  }

  // ---------------------------------------------------------------------------
  // Dispatch

  /** One Clone the main loop performs. */
  datatype Job = Job(repo: RemoteRepo, location: Location)

  /** The Clones one repository gets: the locations that want it, in
      configuration order. */
  function Wanted(engine: RegexEngine, repo: RemoteRepo, locations: seq<Location>): seq<Job>
  {
    if locations == [] then []
    else
      (if Wants(engine, locations[0], repo) then [Job(repo, locations[0])] else [])
      + Wanted(engine, repo, locations[1..])
  }

  /** The Clones of a whole stream: each repository's in turn. */
  function Planned(engine: RegexEngine, repos: seq<RemoteRepo>, locations: seq<Location>): seq<Job>
  {
    if repos == [] then []
    else Wanted(engine, repos[0], locations) + Planned(engine, repos[1..], locations)
  }

  /** The end of a run of Clones: the host state, and the error that stopped
      it (log.Fatal), if any. */
  datatype Run = Run(state: HostState, fatal: Option<Error>)

  /** Clones run one after another; the first failure stops the run. */
  function RunJobs(env: Env, s: HostState, jobs: seq<Job>): Run
    decreases |jobs|
  {
    if jobs == [] then Run(s, None)
    else
      var step := CloneStep(env, s, jobs[0].repo, jobs[0].location);
      if step.outcome.Failed? then Run(step.state, Some(step.outcome.err))
      else RunJobs(env, step.state, jobs[1..])
  }

  /** The inner loop of main for one repository: every location in order,
      Clone when the location wants the repository, stop at the first error. */
  method Offer(host: Host, engine: RegexEngine, repo: RemoteRepo, locations: seq<Location>)
    returns (fatal: Option<Error>)
    modifies host
    ensures Run(host.State(), fatal) == RunJobs(host.env, old(host.State()), Wanted(engine, repo, locations))
  {
    for j := 0 to |locations|
      invariant RunJobs(host.env, old(host.State()), Wanted(engine, repo, locations))
             == RunJobs(host.env, host.State(), Wanted(engine, repo, locations[j..]))
    {
      assert locations[j..][1..] == locations[j + 1..];
      ghost var rest := Wanted(engine, repo, locations[j + 1..]);
      if Wants(engine, locations[j], repo) {
        ghost var jobs := [Job(repo, locations[j])] + rest;
        assert Wanted(engine, repo, locations[j..]) == jobs;
        assert jobs[1..] == rest;
        var err := host.Clone(repo, locations[j]);
        if err.Failed? {
          return Some(err.err);
        }
      } else {
        assert Wanted(engine, repo, locations[j..]) == [] + rest;
        assert [] + rest == rest;
      }
    }
    assert locations[|locations|..] == [];
    fatal := None;
  }

  /** The loop in main: every repository of the stream is offered to the
      locations in turn; the first failing Clone ends the program. */
  method Dispatch(host: Host, engine: RegexEngine, repos: seq<RemoteRepo>, locations: seq<Location>)
    returns (fatal: Option<Error>)
    modifies host
    ensures Run(host.State(), fatal) == RunJobs(host.env, old(host.State()), Planned(engine, repos, locations))
  {
    for i := 0 to |repos|
      invariant RunJobs(host.env, old(host.State()), Planned(engine, repos, locations))
             == RunJobs(host.env, host.State(), Planned(engine, repos[i..], locations))
    {
      assert repos[i..][1..] == repos[i + 1..];
      ghost var s := host.State();
      RunJobsAppend(host.env, s, Wanted(engine, repos[i], locations), Planned(engine, repos[i + 1..], locations));
      fatal := Offer(host, engine, repos[i], locations);
      if fatal.Some? {
        return;
      }
    }
    assert repos[|repos|..] == [];
    fatal := None;
  }

  /** The whole program after configuration: list, deduplicate, dispatch. */
  method Mirror(host: Host, engine: RegexEngine, source: Source, locations: seq<Location>)
    returns (panicked: bool, fatal: Option<Error>)
    requires ScaffoldTerminates(source)
    modifies host
    ensures panicked == ScaffoldSpec(source).panicked
    ensures Run(host.State(), fatal)
         == RunJobs(host.env, old(host.State()), Planned(engine, Deduplicated(ScaffoldSpec(source).emitted), locations))
  {
    var repos;
    repos, panicked := Scaffold(source);
    fatal := Dispatch(host, engine, repos, locations);
  }

  // ---------------------------------------------------------------------------
  // Properties of the plan

  /** A repository is cloned into a location exactly when both are in play and
      the location wants the repository. */
  lemma {:induction false} WantedJobs(engine: RegexEngine, repo: RemoteRepo, locations: seq<Location>, job: Job)
    ensures job in Wanted(engine, repo, locations)
        <==> job.repo == repo && job.location in locations && Wants(engine, job.location, repo)
  {
    if locations != [] {
      WantedJobs(engine, repo, locations[1..], job);
      assert forall l | l in locations :: l == locations[0] || l in locations[1..];
    }
  }

  lemma {:induction false} PlannedJobs(engine: RegexEngine, repos: seq<RemoteRepo>, locations: seq<Location>, job: Job)
    ensures job in Planned(engine, repos, locations)
        <==> job.repo in repos && job.location in locations && Wants(engine, job.location, job.repo)
  {
    if repos != [] {
      PlannedJobs(engine, repos[1..], locations, job);
      WantedJobs(engine, repos[0], locations, job);
      assert forall r | r in repos :: r == repos[0] || r in repos[1..];
    }
  }

  /** Repositories are handled one after another: the Clones of a stream are
      those of its first part followed by those of the rest. */
  lemma {:induction false} PlannedAppend(engine: RegexEngine, a: seq<RemoteRepo>, b: seq<RemoteRepo>, locations: seq<Location>)
    ensures Planned(engine, a + b, locations) == Planned(engine, a, locations) + Planned(engine, b, locations)
  {
    if a != [] {
      assert (a + b)[1..] == a[1..] + b;
      PlannedAppend(engine, a[1..], b, locations);
    } else {
      assert a + b == b;
    }
  }

  /** Each repository is offered to the locations in configuration order: it
      gets one Clone for each position of the configuration whose location
      wants it (a location listed twice is cloned into twice), and no other. */
  lemma WantedInOrder(engine: RegexEngine, repo: RemoteRepo, locations: seq<Location>) returns (idx: seq<nat>)
    ensures var w := Wanted(engine, repo, locations);
      && |idx| == |w|
      && (forall k | 0 <= k < |idx| :: idx[k] < |locations| && w[k] == Job(repo, locations[idx[k]]))
      && (forall k, l | 0 <= k < l < |idx| :: idx[k] < idx[l])
      && (forall i | 0 <= i < |locations| :: i in idx <==> Wants(engine, locations[i], repo))
  {
    idx := WantedPositions(engine, repo, locations);
    WantedPositionsMatch(engine, repo, locations);
    WantedPositionsIncrease(engine, repo, locations);
    WantedPositionsComplete(engine, repo, locations);
  }

  /** The configuration positions whose location wants the repository. */
  function WantedPositions(engine: RegexEngine, repo: RemoteRepo, locations: seq<Location>): seq<nat>
    decreases |locations|
  {
    if locations == [] then []
    else
      var rest := Shift(WantedPositions(engine, repo, locations[1..]));
      if Wants(engine, locations[0], repo) then [0] + rest else rest
  }

  /** Positions in the tail of a sequence, as positions in the whole. */
  function Shift(s: seq<nat>): (r: seq<nat>)
    ensures |r| == |s|
    ensures forall k | 0 <= k < |s| :: r[k] == s[k] + 1
  {
    seq(|s|, k requires 0 <= k < |s| => s[k] + 1)
  }

  lemma ShiftMembers(s: seq<nat>)
    ensures 0 !in Shift(s)
    ensures forall i: nat | i > 0 :: i in Shift(s) <==> (i - 1) in s
  {
    var r := Shift(s);
    forall i: nat | i > 0
      ensures i in r <==> (i - 1) in s
    {
      if (i - 1) in s {
        var k :| 0 <= k < |s| && s[k] == i - 1;
        assert r[k] == i;
      }
    }
  }

  lemma {:induction false} WantedPositionsMatch(engine: RegexEngine, repo: RemoteRepo, locations: seq<Location>)
    ensures var w := Wanted(engine, repo, locations);
      var idx := WantedPositions(engine, repo, locations);
      && |idx| == |w|
      && (forall k | 0 <= k < |idx| :: idx[k] < |locations| && w[k] == Job(repo, locations[idx[k]]))
    decreases |locations|
  {
    if locations != [] {
      var tail := locations[1..];
      WantedPositionsMatch(engine, repo, tail);
      var wr := Wanted(engine, repo, tail);
      var r := WantedPositions(engine, repo, tail);
      var sh := Shift(r);
      forall k | 0 <= k < |sh|
        ensures sh[k] < |locations| && locations[sh[k]] == tail[r[k]]
      {
      }
      if Wants(engine, locations[0], repo) {
        var w := [Job(repo, locations[0])] + wr;
        var idx := [0] + sh;
        assert Wanted(engine, repo, locations) == w;
        forall k | 1 <= k < |idx|
          ensures idx[k] < |locations| && w[k] == Job(repo, locations[idx[k]])
        {
          assert idx[k] == sh[k - 1] && w[k] == wr[k - 1];
        }
      } else {
        assert Wanted(engine, repo, locations) == wr;
      }
    }
  }

  /** Each element is larger than every one before it. */
  predicate Increasing(s: seq<nat>)
  {
    forall k, l | 0 <= k < l < |s| :: s[k] < s[l]
  }

  lemma {:induction false} WantedPositionsIncrease(engine: RegexEngine, repo: RemoteRepo, locations: seq<Location>)
    ensures Increasing(WantedPositions(engine, repo, locations))
    decreases |locations|
  {
    if locations != [] {
      WantedPositionsIncrease(engine, repo, locations[1..]);
      var r := WantedPositions(engine, repo, locations[1..]);
      var sh := Shift(r);
      forall k, l | 0 <= k < l < |sh|
        ensures sh[k] < sh[l]
      {
        assert r[k] < r[l];
      }
      if Wants(engine, locations[0], repo) {
        var idx := [0] + sh;
        forall k, l | 0 <= k < l < |idx|
          ensures idx[k] < idx[l]
        {
          assert idx[l] == sh[l - 1];
          if k > 0 {
            assert idx[k] == sh[k - 1];
          }
        }
      }
    }
  }

  lemma {:induction false} WantedPositionsComplete(engine: RegexEngine, repo: RemoteRepo, locations: seq<Location>)
    ensures var idx := WantedPositions(engine, repo, locations);
      forall i | 0 <= i < |locations| :: i in idx <==> Wants(engine, locations[i], repo)
    decreases |locations|
  {
    if locations != [] {
      var tail := locations[1..];
      WantedPositionsComplete(engine, repo, tail);
      ShiftMembers(WantedPositions(engine, repo, tail));
      forall i | 1 <= i < |locations|
        ensures locations[i] == tail[i - 1]
      {
      }
    }
  }

  // ---------------------------------------------------------------------------
  // Properties of a run

  /** Running two lists of Clones one after the other is running their
      concatenation; a failure in the first list means the second never runs. */
  lemma {:induction false} RunJobsAppend(env: Env, s: HostState, a: seq<Job>, b: seq<Job>)
    decreases |a|
    ensures var r := RunJobs(env, s, a);
      RunJobs(env, s, a + b) == if r.fatal.Some? then r else RunJobs(env, r.state, b)
  {
    if a != [] {
      assert (a + b)[1..] == a[1..] + b;
      var step := CloneStep(env, s, a[0].repo, a[0].location);
      if step.outcome.Ok? {
        RunJobsAppend(env, step.state, a[1..], b);
      }
    } else {
      assert a + b == b;
    }
  }

  /** log.Fatal on the first failing Clone: a run that stops with an error
      stops at a job k whose Clone failed with exactly that error, every
      earlier Clone succeeded, and no later job ran. */
  lemma {:induction false} RunHaltsAtFirstError(env: Env, s: HostState, jobs: seq<Job>) returns (k: nat)
    decreases |jobs|
    requires RunJobs(env, s, jobs).fatal.Some?
    ensures k < |jobs|
    ensures RunJobs(env, s, jobs[..k]).fatal == None
    ensures var step := CloneStep(env, RunJobs(env, s, jobs[..k]).state, jobs[k].repo, jobs[k].location);
      && step.outcome == Failed(RunJobs(env, s, jobs).fatal.value)
      && RunJobs(env, s, jobs).state == step.state
  {
    var step := CloneStep(env, s, jobs[0].repo, jobs[0].location);
    if step.outcome.Failed? {
      k := 0;
    } else {
      var k' := RunHaltsAtFirstError(env, step.state, jobs[1..]);
      k := k' + 1;
      assert jobs[..k][1..] == jobs[1..][..k'];
      assert jobs[1..][k'] == jobs[k];
    }
  }

  /** A run without an error performs every planned Clone, each of them
      successfully. */
  lemma {:induction false} RunCompletes(env: Env, s: HostState, jobs: seq<Job>, k: nat)
    requires RunJobs(env, s, jobs).fatal == None
    requires k < |jobs|
    ensures RunJobs(env, s, jobs[..k]).fatal == None
    ensures CloneStep(env, RunJobs(env, s, jobs[..k]).state, jobs[k].repo, jobs[k].location).outcome == Ok
  {
    assert jobs == jobs[..k] + jobs[k..];
    RunJobsAppend(env, s, jobs[..k], jobs[k..]);
  }

  // ---------------------------------------------------------------------------
  // Running mgit again changes nothing

  /** How Clone changes the file system: nothing is removed, a directory stays
      a directory, and no file is created. */
  predicate Grows(fs1: map<string, Entry>, fs2: map<string, Entry>)
  {
    && fs1.Keys <= fs2.Keys
    && (forall p | p in fs1 && fs1[p] == Dir :: fs2[p] == Dir)
    && (forall p | p in fs2 && fs2[p] == File :: p in fs1 && fs1[p] == File)
  }

  /** A job whose Clone has nothing left to do in this file system. */
  predicate Settled(env: Env, fs: map<string, Entry>, job: Job)
  {
    var dir := env.expandEnv(job.location.directory);
    var target := Join(dir, job.repo.name);
    && dir !in env.statDenied && target !in env.statDenied
    && target in fs && fs[target] == Dir
    && (dir in fs ==> fs[dir] == Dir)
    && (dir !in fs ==> dir in env.mkdirDenied)
  }

  lemma CloneGrows(env: Env, s: HostState, repo: RemoteRepo, location: Location)
    ensures Grows(s.fs, CloneStep(env, s, repo, location).state.fs)
  {
  }

  lemma GrowsTransitive(fs1: map<string, Entry>, fs2: map<string, Entry>, fs3: map<string, Entry>)
    requires Grows(fs1, fs2) && Grows(fs2, fs3)
    ensures Grows(fs1, fs3)
  {
  }

  /** A successful Clone settles its job. */
  lemma CloneSettles(env: Env, s: HostState, job: Job)
    requires Join(env.expandEnv(job.location.directory), job.repo.name) !in env.statDenied
    requires CloneStep(env, s, job.repo, job.location).outcome == Ok
    ensures Settled(env, CloneStep(env, s, job.repo, job.location).state.fs, job)
  {
    var dir := env.expandEnv(job.location.directory);
    assert Join(dir, job.repo.name) != dir by {
      assert |Join(dir, job.repo.name)| > |dir|;
    }
  }

  /** A settled job stays settled as the file system grows. */
  lemma SettledPersists(env: Env, fs1: map<string, Entry>, fs2: map<string, Entry>, job: Job)
    requires Settled(env, fs1, job) && Grows(fs1, fs2)
    ensures Settled(env, fs2, job)
  {
    var dir := env.expandEnv(job.location.directory);
    if dir in fs2 {
      assert fs2[dir] != File;
    }
  }

  /** The Clone of a settled job returns nil and changes nothing. */
  lemma SettledIsNoOp(env: Env, s: HostState, job: Job)
    requires Settled(env, s.fs, job)
    ensures CloneStep(env, s, job.repo, job.location) == Step(s, Ok)
  {
  }

  /** After a run without error, every job of the run is settled. */
  lemma {:induction false} RunSettles(env: Env, s: HostState, jobs: seq<Job>)
    decreases |jobs|
    requires forall job | job in jobs :: Join(env.expandEnv(job.location.directory), job.repo.name) !in env.statDenied
    requires RunJobs(env, s, jobs).fatal == None
    ensures Grows(s.fs, RunJobs(env, s, jobs).state.fs)
    ensures forall job | job in jobs :: Settled(env, RunJobs(env, s, jobs).state.fs, job)
  {
    if jobs != [] {
      var step := CloneStep(env, s, jobs[0].repo, jobs[0].location);
      var s1 := RunJobs(env, s, jobs).state;
      CloneGrows(env, s, jobs[0].repo, jobs[0].location);
      CloneSettles(env, s, jobs[0]);
      assert forall job | job in jobs[1..] :: job in jobs;
      RunSettles(env, step.state, jobs[1..]);
      GrowsTransitive(s.fs, step.state.fs, s1.fs);
      SettledPersists(env, step.state.fs, s1.fs, jobs[0]);
      assert forall job | job in jobs :: job == jobs[0] || job in jobs[1..];
    }
  }

  /** A run of settled jobs changes nothing and succeeds. */
  lemma {:induction false} SettledRunIsNoOp(env: Env, s: HostState, jobs: seq<Job>)
    decreases |jobs|
    requires forall job | job in jobs :: Settled(env, s.fs, job)
    ensures RunJobs(env, s, jobs) == Run(s, None)
  {
    if jobs != [] {
      SettledIsNoOp(env, s, jobs[0]);
      assert forall job | job in jobs[1..] :: job in jobs;
      SettledRunIsNoOp(env, s, jobs[1..]);
    }
  }

  /** Running the same plan again after a run without error issues no git
      command, creates nothing and succeeds: mgit only clones what is missing.
      (A target path on which os.Stat fails is never seen as present, so such
      paths are excluded.) */
  lemma RerunIsNoOp(env: Env, s: HostState, jobs: seq<Job>)
    requires forall job | job in jobs :: Join(env.expandEnv(job.location.directory), job.repo.name) !in env.statDenied
    requires RunJobs(env, s, jobs).fatal == None
    ensures var s1 := RunJobs(env, s, jobs).state;
      RunJobs(env, s1, jobs) == Run(s1, None)
  {
    RunSettles(env, s, jobs);
    SettledRunIsNoOp(env, RunJobs(env, s, jobs).state, jobs);
  }
}
