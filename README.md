# mgit: a Dafny model of repository discovery and cloning

mgit mirrors a GitHub user's repositories onto the local disk. It lists
the user's owned, watched and starred repositories page by page. The
combined stream is deduplicated by URL. Each repository is then offered to
the configured locations in turn. A location wants a repository when the
location's regular expression matches the repository's URL. Each location
that wants it gets a Clone, which creates the location directory when it is
missing, skips repositories already checked out, and otherwise runs
`git clone`. The first Clone that fails ends the program. A separate Fetch
runs `git fetch` in a local repository.

The model has four modules:

- `Mgit` (`mgit.dfy`): the value types of `main.go`, `Location.Wants` and
  `Location.DirectoryName`.
- `Github` (`github.dfy`): the three paged listing loops and `scaffold`.
  Each listing is a page oracle: the page asked for maps to the page's
  items, the response's NextPage (or no response), and the error.
- `Git` (`git.dfy`): a `Host` class that holds the file system (a map from
  path to entry) and the log of git invocations. `Clone` and `Fetch` are
  its methods. `Clone` is proved equal to a pure step function, and its
  properties are proved about that function. `Fetch` states its new
  state and its result directly.
- `Pipeline` (`pipeline.dfy`): the deduplicating loop of `scaffold` in
  `main.go`, the dispatch loop of `main`, and the whole run put together.

These stay as parameters: the regular-expression engine (which patterns
compile, which slices match), `os.ExpandEnv`, the paths on which `os.Stat`
or `os.MkdirAll` fails, and the exit status of each git run.

What the code does at the points where a reader might expect otherwise:

- A listing error does not stop the listing. It is logged, the page's
  items are still emitted, and NextPage is followed
  (`Github.ListingErrorIgnored`).
- `scaffold` runs the three listings one after another: owned
  repositories come first, then watched, then starred (`Github.Scaffold`).
- The result of `os.MkdirAll` is ignored. Clone goes on to the checkout
  step even when the location directory could not be made. The failure
  surfaces only when git is started in that directory: `exec.Cmd.Run`
  cannot enter it, so git never runs and Clone returns that start error
  (`Git.CloneCreatesMissingLocation`).
- When `<dir>/<name>` exists but is a file, Clone does not report it. It
  runs `git clone`, and git decides the outcome.

## Model

| member | source | states |
|---|---|---|
| `Mgit.Wants` | main.go:82-89 | A pattern that does not compile wants nothing. Otherwise the location wants the repository exactly when some slice of the URL matches the pattern (an unanchored search). |
| `Mgit.UpperRun` | main.go:92 | The run of capitals after `$` in the placeholder pattern `\$[A-Z]*` is maximal: every character in it is a capital and the next one is not. |
| `Mgit.LiteralUnchanged` | main.go:92-97 | Text without a `$` passes through the placeholder replacement unchanged. |
| `Mgit.DirectoryNameAsWritten` | main.go:91-98 | DirectoryName as written: a directory without a `$` comes back unchanged. The behaviour on placeholders is stated by the lemmas below. |
| `Mgit.DirectoryName` | main.go:91-98 | DirectoryName corrected: a directory without a `$` comes back unchanged. The behaviour on placeholders is stated by the lemmas below. |
| `Mgit.LiteralPrefixKept` | main.go:92-97 | Literal text before the first `$` is copied through, and the rest is replaced on its own. |
| `Mgit.PlaceholderReplaced` | main.go:92-97 | A placeholder at the front, `$` followed by a maximal run of capitals, is replaced by the callback's value for exactly that placeholder. |
| `Mgit.UpperRunOfCapitals` | main.go:92 | A run of capitals followed by a non-capital is matched whole by the placeholder pattern. |
| `Mgit.DirectoryNameOnePlaceholder` | main.go:91-98 | With the callback corrected, a template `before$NAMEafter` becomes `before`, then the expansion of `$NAME`, then `after`. |
| `Mgit.DirectoryNameAsWrittenOnePlaceholder` | main.go:91-98 | As written, the same template becomes `before`, then the expansion of the whole template, then `after`, so the literal text is repeated. |
| `Mgit.DirectoryNameDuplicatesSuffix` | main.go:91-98 | As written, `$HOME/src` with HOME=/home/u gives `/home/u/src/src`. |
| `Mgit.DirectoryNameExpandsOnce` | main.go:91-98 | Corrected, `$HOME/src` with HOME=/home/u gives `/home/u/src`. |
| `Git.Host.constructor` | git.go:12-48 | The host starts with the given file system and an empty git log. |
| `Git.Host.MkdirAll` | git.go:17 | After os.MkdirAll the path is a directory, unless it cannot be created. Then nothing changes. |
| `Git.Host.Run` | git.go:37-39 | When the working directory is not a directory, git cannot be started: the command fails to start, nothing is logged and nothing changes. Otherwise running git appends the command to the log and returns its exit status as the error, and a successful clone leaves `<dir>/<name>` as a directory. |
| `Git.Host.Clone` | git.go:12-41 | Clone's new file system, log and returned error are those of the step function `CloneStep` on the old state. |
| `Git.Host.Fetch` | git.go:43-48 | When the repository's directory is a directory, Fetch runs exactly one `git fetch` in it and returns git's result. Otherwise git cannot be started: Fetch returns the start failure and logs nothing. The modelled file system (the paths Clone inspects or creates) is unchanged. The files git writes inside the repository are not modelled. |
| `Git.CloneLocationErrors` | git.go:13-25 | A location directory that cannot be examined gives the stat error. One that is a file gives the "already exists" error. Both leave the host untouched. These are the only two cases that return these errors. |
| `Git.CloneCreatesMissingLocation` | git.go:15-39 | A missing location directory is created when it can be, and Clone can then fail only by git failing. A failure to create it is not reported by MkdirAll. Then the host is unchanged, and the only error Clone can return is the start failure of `git clone`, which cannot enter the directory. |
| `Git.CloneRunsGitExactlyWhenNeeded` | git.go:27-39 | git runs exactly when `<dir>/<name>` is not a directory and the location directory either is a directory or is missing and can be created. It then runs one `git clone <url> <name>` in the expanded directory and returns git's result unchanged. Otherwise the log is unchanged. |
| `Git.ClonePresentIsNoOp` | git.go:27-33 | When `<dir>/<name>` is already a directory, Clone succeeds and changes nothing. |
| `Git.CloneIdempotent` | git.go:12-41 | After a successful Clone, a second Clone of the same repository into the same location succeeds and changes nothing, provided os.Stat does not fail on `<dir>/<name>`. If it fails, git runs again (git.go:27). |
| `Github.Converted` | github.go:45-47 | Each page item becomes one descriptor, in page order. |
| `Github.Steps` | github.go:40-52 | A listing that ends runs up to and including its first step whose response says NextPage 0 or gives no response. |
| `Github.FirstFinalFrom` | github.go:48-50 | The search for the loop's last step finds a final step with no final step before it. |
| `Github.RunsPastBelow` | github.go:48-51 | The loop goes past a step only when no earlier step was final. |
| `Github.StepsOfFirstFinal` | github.go:48-50 | The first final step is unique, so it fixes how many calls a listing makes. |
| `Github.RequestsUpToAt` | github.go:36-41 | Step k asks for the page reached by following NextPage k times from page 0, with 50 items per page. |
| `Github.RequestsFollowNextPage` | github.go:36-52 | A listing's first call asks for page 0 with 50 items per page. Each later call asks for the previous response's NextPage. Every call but the last got a non-zero NextPage, and the last did not. |
| `Github.EmittedUpToPages` | github.go:45-47 | The descriptors a listing emits are the items of the requested pages, in request order. |
| `Github.SameSteps` | github.go:41-44 | Two listings that agree on items and NextPage agree step by step, whatever errors they report. |
| `Github.ListingErrorIgnored` | github.go:42-44 | A listing error changes nothing: not the requests, not the emitted descriptors, not whether the loop panics. |
| `Github.ListingOfRun` | github.go:40-52 | A run whose first final step is step n-1 makes the listing's n requests, emits their items, and panics exactly when the last call got no response. |
| `Github.ReadPages` | github.go:36-52 | The listing loop makes exactly the listing's requests, emits exactly its descriptors, and panics exactly when a call returns no response. |
| `Github.ReadUserRepositories` | github.go:32-53 | The owned listing, with repositories mapped to name and SSH URL. |
| `Github.ReadWatchedRepositories` | github.go:55-74 | The watched listing, with repositories mapped to name and SSH URL. |
| `Github.ReadStarredRepositories` | github.go:76-96 | The starred listing, each starred entry unwrapped to its repository's name and SSH URL. |
| `Github.Scaffold` | github.go:25-30 | The owned, watched and starred listings run in this order. When none panics, the stream is their concatenation. A panic ends the stream after the panicking listing's pages. |
| `Pipeline.UrlsAppend` | main.go:52-55 | One more repository adds exactly its URL to the set of URLs seen. |
| `Pipeline.DeduplicatedStep` | main.go:51-56 | A repository is kept exactly when its URL has not come before. |
| `Pipeline.DeduplicatedUrls` | main.go:46-58 | Nothing is lost: the deduplicated stream holds every URL of the input, and no other. |
| `Pipeline.DeduplicatedDistinct` | main.go:46-58 | No two repositories of the deduplicated stream share a URL. |
| `Pipeline.DeduplicatedFirstOccurrences` | main.go:46-58 | The deduplicated stream is exactly the first repository of each URL, in input order. So the first of several repositories sharing a URL wins, and the output is a subsequence of the input. |
| `Pipeline.Deduplicate` | main.go:50-57 | The loop with its map of seen URLs emits exactly the deduplicated stream. |
| `Pipeline.Scaffold` | main.go:36-61 | `scaffold` yields the deduplication of what the listings emit, and panics exactly when a listing does. |
| `Pipeline.Offer` | main.go:26-32 | For one repository, the locations are tried in configuration order. Each location that wants it gets a Clone, and the first error stops the loop. |
| `Pipeline.Dispatch` | main.go:25-33 | The main loop's final host state and fatal error are those of running the planned Clones in order and stopping at the first error. |
| `Pipeline.Mirror` | main.go:23-33 | The whole run: the listings, then deduplication, then the planned Clones of the deduplicated stream. |
| `Pipeline.WantedJobs` | main.go:26-28 | A repository gets a Clone into a location exactly when the location is configured and wants it. |
| `Pipeline.PlannedJobs` | main.go:25-28 | A Clone of a repository into a location is planned exactly when the repository is in the stream, the location is configured, and the location wants the repository. |
| `Pipeline.PlannedAppend` | main.go:25-33 | Repositories are handled one after another: a stream's Clones are those of its first part followed by those of the rest. |
| `Pipeline.WantedInOrder` | main.go:26-27 | A repository gets one Clone for each configuration position whose location wants it, in configuration order, and no other. A location listed twice is cloned into twice. |
| `Pipeline.RunJobsAppend` | main.go:25-33 | Running two lists of Clones in turn is running their concatenation. A failure in the first list means the second never runs. |
| `Pipeline.RunHaltsAtFirstError` | main.go:28-30 | A run that ends with an error stops at a job whose Clone failed with exactly that error. Every earlier Clone succeeded, and no later job runs. |
| `Pipeline.RunCompletes` | main.go:25-33 | A run without an error performs every planned Clone, and each one succeeds. |
| `Pipeline.CloneGrows` | git.go:12-41 | In the modelled file system (the paths Clone inspects or creates), Clone removes nothing, keeps directories as directories, and creates no file. The files `git clone` writes inside the new repository are not modelled. |
| `Pipeline.GrowsTransitive` | git.go:12-41 | File-system growth composes across Clones. |
| `Pipeline.CloneSettles` | git.go:12-41 | After a successful Clone, a repeat of it has nothing left to do, provided os.Stat does not fail on `<dir>/<name>`. |
| `Pipeline.SettledPersists` | git.go:12-41 | A job with nothing left to do stays that way while later Clones run. |
| `Pipeline.SettledIsNoOp` | git.go:27-33 | The Clone of a job with nothing left to do succeeds and changes nothing. |
| `Pipeline.RunSettles` | main.go:25-33 | After a run without an error, every job of the run has nothing left to do. |
| `Pipeline.SettledRunIsNoOp` | main.go:25-33 | A run of jobs that have nothing left to do succeeds and changes nothing. |
| `Pipeline.RerunIsNoOp` | main.go:25-33 | After a run without an error, running the same plan again succeeds, issues no git command and changes nothing, provided os.Stat fails on no job's `<dir>/<name>`. A target that cannot be examined is never seen as present, so git runs again for it (git.go:27). |

## Left out

- Concurrency: the goroutines and unbuffered channels of `scaffold` are modelled as sequential stages over sequences. With unbuffered channels every descriptor is received in send order, so the order of the stream is kept.
- Pipeline.Mirror: the listings, deduplication and dispatch are concurrent in Go, and the model runs them one after another. When a listing panics, the Go process dies at a point that depends on scheduling. The model runs the Clones of every descriptor emitted before the panic, which is the furthest the real process can get. `panicked` is the listings' own outcome. Once a Clone fails, `log.Fatal` ends the process, and a listing that would panic later may never get that far. So `panicked` and `fatal` can both be set in the model, while the real process stops at whichever comes first.
- The file system is modelled only at the paths Clone inspects or creates: the location directories and `<dir>/<name>`. The files that `git clone` and `git fetch` write inside a repository are not tracked.
- Github.ReadPages: requires that following NextPage reaches a final page. A listing that cycles forever is not modelled, and `Github.Scaffold`, `Pipeline.Scaffold` and `Pipeline.Mirror` inherit this requirement.
- `createGithubSource` (OAuth client set-up), `ReadConfig` (JSON decoding of the configuration file) and the `-config` flag are not part of this model: they are I/O.
- The regular-expression engine and `os.ExpandEnv` are parameters and are not interpreted. Only the placeholder pattern `\$[A-Z]*` of `DirectoryName` is modelled concretely.
- `path.Join` is modelled as `dir + "/" + name`, without the path cleaning that Go's `path.Join` does.
- `os.MkdirAll` is modelled as creating the one directory path. Parent directories are not tracked, so the map can hold `<dir>/<name>` while `<dir>` is missing. A job in that state counts as settled (`Pipeline.Settled`) only when `<dir>` cannot be created, because otherwise its next Clone would create `<dir>`.
- A repository whose Name or SSHURL is nil makes the Go code dereference nil. Names and URLs are always present in the model.
- Logging (`log.Printf`, `log.Println`) is left out. A listing error appears only as the `err` field of a page, which nothing reads.
- The scanner of local repositories that feeds Fetch has no code in the modelled files. Fetch is modelled on its own, as a method of the host.
- `Location.DirectoryName` is not called by `Clone`, which expands the directory with `os.ExpandEnv` directly. The model keeps the two apart in the same way.

## Findings

| source | as written | input that shows it | evidently intended | confidence | as-written member | corrected member |
|---|---|---|---|---|---|---|
| main.go:94-97 | The replacement callback returns `os.ExpandEnv(l.Directory)`, the expansion of the whole directory template, for every placeholder. | Directory `$HOME/src` with HOME=/home/u gives `/home/u/src/src`. | Each placeholder is replaced by its own expansion, so `$HOME/src` gives `/home/u/src`. | not executed | `Mgit.DirectoryNameDuplicatesSuffix` | `Mgit.DirectoryNameExpandsOnce` |
