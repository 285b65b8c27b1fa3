/** github.go: listing the authenticated user's owned, watched and starred
    repositories page by page. The GitHub client is a page oracle per
    listing: the page requested maps to the page's items, the response's
    NextPage, and the error returned beside it. */
module Github {
  import opened Mgit

  /** The fields of a go-github Repository that the source reads. */
  datatype Repository = Repository(name: string, sshUrl: string)

  /** A go-github StarredRepository: a repository wrapped with star metadata. */
  datatype StarredRepository = StarredRepository(repository: Repository)

  /** One listing call's result: the items, the response's NextPage (None when
      no response came back at all), and the error, if any. */
  datatype Page<T> = Page(items: seq<T>, nextPage: Option<nat>, err: Option<string>)

  /** The options of a listing call: the page to fetch (0 = unset, the first
      page) and the page size. */
  datatype ListOptions = ListOptions(page: nat, perPage: nat)

  const PerPage: nat := 50

  /** The authenticated user's three listings. */
  datatype Source = Source(
    owned: nat -> Page<Repository>,
    watched: nat -> Page<Repository>,
    starred: nat -> Page<StarredRepository>)

  datatype Category = Owned | Watched | Starred

  /** A listing call as the server sees it. */
  datatype Request = Request(category: Category, options: ListOptions)

  function RepositoryToRemote(r: Repository): RemoteRepo
  {
    RemoteRepo(r.name, r.sshUrl)
  }

  function StarredToRemote(s: StarredRepository): RemoteRepo
  {
    RemoteRepo(s.repository.name, s.repository.sshUrl)
  }

  /** Whether the loop asks for another page after this one: only when a
      response came back with a non-zero NextPage. With no response the
      NextPage dereference panics; with NextPage 0 the loop ends. */
  predicate Continues<T>(p: Page<T>)
  {
    p.nextPage.Some? && p.nextPage.value != 0
  }

  /** The page requested at step k of a listing loop, following NextPage from
      page 0 (meaningful while no earlier step has ended the loop). */
  function PageAt<T>(list: nat -> Page<T>, k: nat): nat
  {
    if k == 0 then 0
    else
      var prev := list(PageAt(list, k - 1));
      if prev.nextPage.Some? then prev.nextPage.value else 0
  }

  /** Whether step k of the loop is its last. */
  predicate Final<T>(list: nat -> Page<T>, k: nat)
  {
    !Continues(list(PageAt(list, k)))
  }

  /** None of the first n steps is the last one. */
  predicate RunsPast<T>(list: nat -> Page<T>, n: nat)
  {
    n == 0 || (RunsPast(list, n - 1) && !Final(list, n - 1))
  }

  /** The listing reaches a last page: following NextPage eventually gives 0
      or no response. */
  ghost predicate Paginates<T>(list: nat -> Page<T>)
  {
    exists k: nat :: Final(list, k)
  }

  /** A page's items as the descriptors the loop emits. */
  function Converted<T>(items: seq<T>, convert: T -> RemoteRepo): (r: seq<RemoteRepo>)
    ensures |r| == |items|
    ensures forall i | 0 <= i < |items| :: r[i] == convert(items[i])
  {
    seq(|items|, i requires 0 <= i < |items| => convert(items[i]))
  }

  /** The requests made by the first k steps. */
  function RequestsUpTo<T>(list: nat -> Page<T>, category: Category, k: nat): seq<Request>
  {
    if k == 0 then []
    else RequestsUpTo(list, category, k - 1) + [Request(category, ListOptions(PageAt(list, k - 1), PerPage))]
  }

  /** The descriptors emitted by the first k steps, in page order. */
  function EmittedUpTo<T>(list: nat -> Page<T>, convert: T -> RemoteRepo, k: nat): seq<RemoteRepo>
  {
    if k == 0 then []
    else EmittedUpTo(list, convert, k - 1) + Converted(list(PageAt(list, k - 1)).items, convert)
  }

  /** The number of steps a listing loop runs: up to and including the first
      final one. */
  ghost function Steps<T>(list: nat -> Page<T>): (n: nat)
    requires Paginates(list)
    ensures n > 0 && Final(list, n - 1) && RunsPast(list, n - 1)
  {
    var bound: nat :| Final(list, bound);
    FirstFinalFrom(list, 0, bound) + 1
  }

  /** The first final step at or after k, given that none before k is final
      and that step `bound` is. */
  function FirstFinalFrom<T>(list: nat -> Page<T>, k: nat, bound: nat): (n: nat)
    requires k <= bound && Final(list, bound) && RunsPast(list, k)
    ensures k <= n <= bound && Final(list, n) && RunsPast(list, n)
    decreases bound - k
  {
    if Final(list, k) then k else FirstFinalFrom(list, k + 1, bound)
  }

  /** Every step below one the loop runs past is not final. */
  lemma {:induction false} RunsPastBelow<T>(list: nat -> Page<T>, n: nat, j: nat)
    requires RunsPast(list, n) && j < n
    ensures !Final(list, j)
  {
    if j < n - 1 {
      RunsPastBelow(list, n - 1, j);
    }
  }

  /** The first final step is unique, so it fixes the number of steps. */
  lemma StepsOfFirstFinal<T>(list: nat -> Page<T>, n: nat)
    requires Final(list, n) && RunsPast(list, n)
    ensures Paginates(list) && Steps(list) == n + 1
  {
    var m := Steps(list) - 1;
    if m < n {
      RunsPastBelow(list, n, m);
    } else if n < m {
      RunsPastBelow(list, m, n);
    }
  }

  /** The requests one listing makes. */
  ghost function Requests<T>(list: nat -> Page<T>, category: Category): seq<Request>
    requires Paginates(list)
  {
    RequestsUpTo(list, category, Steps(list))
  }

  /** Whether one listing ends in a panic: its last call got no response. */
  ghost predicate Panics<T>(list: nat -> Page<T>)
    requires Paginates(list)
  {
    list(PageAt(list, Steps(list) - 1)).nextPage.None?
  }

  /** The descriptors one listing emits. */
  ghost function Emitted<T>(list: nat -> Page<T>, convert: T -> RemoteRepo): seq<RemoteRepo>
    requires Paginates(list)
  {
    EmittedUpTo(list, convert, Steps(list))
  }

  /** Step k's request asks for page PageAt(list, k), 50 items per page. */
  lemma {:induction false} RequestsUpToAt<T>(list: nat -> Page<T>, category: Category, n: nat, k: nat)
    requires k < n
    ensures |RequestsUpTo(list, category, n)| == n
    ensures RequestsUpTo(list, category, n)[k] == Request(category, ListOptions(PageAt(list, k), PerPage))
  {
    if k < n - 1 {
      RequestsUpToAt(list, category, n - 1, k);
    } else if n > 1 {
      RequestsUpToAt(list, category, n - 1, n - 2);
    }
  }

  /** What a listing requests: the first call asks for page 0 (unset), each
      later call asks for the page the previous response named as NextPage,
      every call asks for 50 items, and the last call is the first whose
      response says NextPage 0 or gives no response. */
  lemma RequestsFollowNextPage<T>(list: nat -> Page<T>, category: Category)
    requires Paginates(list)
    ensures var r := Requests(list, category);
      && |r| == Steps(list) && r[0] == Request(category, ListOptions(0, PerPage))
      && (forall k | 0 <= k < |r| :: r[k].category == category && r[k].options.perPage == PerPage)
      && (forall k | 0 <= k < |r| - 1 :: Continues(list(r[k].options.page)))
      && (forall i, j | 0 <= i && j == i + 1 < |r| :: r[j].options.page == list(r[i].options.page).nextPage.value)
      && !Continues(list(r[|r| - 1].options.page))
  {
    var n := Steps(list);
    var r := Requests(list, category);
    forall k | 0 <= k < n
      ensures |r| == n && r[k] == Request(category, ListOptions(PageAt(list, k), PerPage))
    {
      RequestsUpToAt(list, category, n, k);
    }
    forall k | 0 <= k < n - 1
      ensures Continues(list(r[k].options.page))
    {
      RunsPastBelow(list, n - 1, k);
    }
  }

  /** The items one listing emits are each requested page's items, in request
      order, each mapped to a descriptor by `convert`. */
  lemma {:induction false} EmittedUpToPages<T>(list: nat -> Page<T>, convert: T -> RemoteRepo, category: Category, n: nat)
    ensures EmittedUpTo(list, convert, n) == PagesItems(list, convert, RequestsUpTo(list, category, n))
  {
    if n > 0 {
      EmittedUpToPages(list, convert, category, n - 1);
      var r := RequestsUpTo(list, category, n);
      assert r[..|r| - 1] == RequestsUpTo(list, category, n - 1);
    }
  }

  /** The items of the requested pages, in request order, as descriptors. */
  function PagesItems<T>(list: nat -> Page<T>, convert: T -> RemoteRepo, requests: seq<Request>): seq<RemoteRepo>
  {
    if requests == [] then []
    else
      PagesItems(list, convert, requests[..|requests| - 1])
      + Converted(list(requests[|requests| - 1].options.page).items, convert)
  }

  /** Two listings that agree on every page's items and NextPage agree step by
      step, whatever errors they report. */
  lemma {:induction false} SameSteps<T>(l1: nat -> Page<T>, l2: nat -> Page<T>, convert: T -> RemoteRepo, category: Category, k: nat)
    requires forall p :: l1(p).items == l2(p).items && l1(p).nextPage == l2(p).nextPage
    ensures PageAt(l1, k) == PageAt(l2, k)
    ensures Final(l1, k) == Final(l2, k) && RunsPast(l1, k) == RunsPast(l2, k)
    ensures RequestsUpTo(l1, category, k) == RequestsUpTo(l2, category, k)
    ensures EmittedUpTo(l1, convert, k) == EmittedUpTo(l2, convert, k)
  {
    if k > 0 {
      SameSteps(l1, l2, convert, category, k - 1);
    }
  }

  /** A listing error is only logged: the error beside a page changes neither
      the requests made, nor the items emitted, nor whether the loop panics. */
  lemma ListingErrorIgnored<T>(l1: nat -> Page<T>, l2: nat -> Page<T>, convert: T -> RemoteRepo, category: Category)
    requires forall p :: l1(p).items == l2(p).items && l1(p).nextPage == l2(p).nextPage
    requires Paginates(l1)
    ensures Paginates(l2) && Listing(l1, convert, category) == Listing(l2, convert, category)
  {
    var n := Steps(l1) - 1;
    SameSteps(l1, l2, convert, category, n);
    SameSteps(l1, l2, convert, category, n + 1);
    StepsOfFirstFinal(l2, n);
  }

  /** What the three listings together make and emit, run one after another;
      a panic in one listing ends the process, so later listings never run. */
  datatype Scaffolded = Scaffolded(requests: seq<Request>, emitted: seq<RemoteRepo>, panicked: bool)

  ghost function Listing<T>(list: nat -> Page<T>, convert: T -> RemoteRepo, category: Category): Scaffolded
    requires Paginates(list)
  {
    Scaffolded(Requests(list, category), Emitted(list, convert), Panics(list))
  }

  /** The first listing, followed by the second unless the first panicked. */
  function Then(first: Scaffolded, second: Scaffolded): Scaffolded
  {
    if first.panicked then first
    else Scaffolded(first.requests + second.requests, first.emitted + second.emitted, second.panicked)
  }

  ghost predicate ScaffoldTerminates(source: Source)
  {
    && Paginates(source.owned)
    && (!Panics(source.owned) ==> Paginates(source.watched))
    && (!Panics(source.owned) && !Panics(source.watched) ==> Paginates(source.starred))
  }

  ghost function ScaffoldSpec(source: Source): Scaffolded
    requires ScaffoldTerminates(source)
  {
    var owned := Listing(source.owned, RepositoryToRemote, Owned);
    if owned.panicked then owned
    else
      var watched := Listing(source.watched, RepositoryToRemote, Watched);
      if watched.panicked then Then(owned, watched)
      else Then(owned, Then(watched, Listing(source.starred, StarredToRemote, Starred)))
  }

  /** The listing loop shared by readUserRepositories, readWatchedRepositories
      and readStarredRepositories. It asks for page 0 with 50 items per page,
      emits every item of every page it gets, and follows NextPage until a
      response says 0. A listing error is only logged: it neither stops the
      loop nor drops the page's items. A call that returns no response at all
      panics on the NextPage dereference, after that page's items. */
  method ReadPages<T>(list: nat -> Page<T>, convert: T -> RemoteRepo, category: Category)
    returns (requests: seq<Request>, emitted: seq<RemoteRepo>, panicked: bool)
    requires Paginates(list)
    ensures Scaffolded(requests, emitted, panicked) == Listing(list, convert, category)
  {
    ghost var bound: nat :| Final(list, bound);
    var opt := ListOptions(0, PerPage);
    requests, emitted, panicked := [], [], false;
    var more := true;
    while more
      invariant more ==> |requests| <= bound && RunsPast(list, |requests|)
      invariant more ==> opt == ListOptions(PageAt(list, |requests|), PerPage)
      invariant !more ==> |requests| > 0 && Final(list, |requests| - 1) && RunsPast(list, |requests| - 1)
      invariant !more ==> (panicked <==> list(PageAt(list, |requests| - 1)).nextPage.None?)
      invariant requests == RequestsUpTo(list, category, |requests|)
      invariant emitted == EmittedUpTo(list, convert, |requests|)
      decreases more, bound - |requests|
    {
      ghost var k := |requests|;
      var page := list(opt.page);  // page.err is only logged
      requests := requests + [Request(category, opt)];
      emitted := emitted + Converted(page.items, convert);
      if Continues(page) {
        opt := opt.(page := page.nextPage.value);
        assert RunsPast(list, k + 1);
      } else {
        // resp.NextPage == 0 ends the loop; a nil resp panics here
        panicked := page.nextPage.None?;
        more := false;
      }
    }
    ListingOfRun(list, convert, category, |requests|);
  }

  /** A run whose first final step is step n - 1 makes the listing. */
  lemma ListingOfRun<T>(list: nat -> Page<T>, convert: T -> RemoteRepo, category: Category, n: nat)
    requires n > 0 && Final(list, n - 1) && RunsPast(list, n - 1)
    ensures Paginates(list)
    ensures Listing(list, convert, category)
         == Scaffolded(RequestsUpTo(list, category, n), EmittedUpTo(list, convert, n),
                       list(PageAt(list, n - 1)).nextPage.None?)
  {
    StepsOfFirstFinal(list, n - 1);
  }

  method ReadUserRepositories(source: Source) returns (requests: seq<Request>, emitted: seq<RemoteRepo>, panicked: bool)
    requires Paginates(source.owned)
    ensures Scaffolded(requests, emitted, panicked) == Listing(source.owned, RepositoryToRemote, Owned)
  {
    requests, emitted, panicked := ReadPages(source.owned, RepositoryToRemote, Owned);
  }

  method ReadWatchedRepositories(source: Source) returns (requests: seq<Request>, emitted: seq<RemoteRepo>, panicked: bool)
    requires Paginates(source.watched)
    ensures Scaffolded(requests, emitted, panicked) == Listing(source.watched, RepositoryToRemote, Watched)
  {
    requests, emitted, panicked := ReadPages(source.watched, RepositoryToRemote, Watched);
  }

  /** Starred items are unwrapped through their `repository` field. */
  method ReadStarredRepositories(source: Source) returns (requests: seq<Request>, emitted: seq<RemoteRepo>, panicked: bool)
    requires Paginates(source.starred)
    ensures Scaffolded(requests, emitted, panicked) == Listing(source.starred, StarredToRemote, Starred)
  {
    requests, emitted, panicked := ReadPages(source.starred, StarredToRemote, Starred);
  }

  /** GithubSource.scaffold: the owned listing, then the watched one, then the
      starred one, in sequence. */
  method Scaffold(source: Source) returns (requests: seq<Request>, emitted: seq<RemoteRepo>, panicked: bool)
    requires ScaffoldTerminates(source)
    ensures Scaffolded(requests, emitted, panicked) == ScaffoldSpec(source)
    ensures !panicked ==>
      && emitted == Emitted(source.owned, RepositoryToRemote)
                    + Emitted(source.watched, RepositoryToRemote)
                    + Emitted(source.starred, StarredToRemote)
      && requests == Requests(source.owned, Owned) + Requests(source.watched, Watched) + Requests(source.starred, Starred)
  {
    requests, emitted, panicked := ReadUserRepositories(source);
    if panicked {
      return;
    }
    var r, e, p := ReadWatchedRepositories(source);
    requests, emitted, panicked := requests + r, emitted + e, p;
    if panicked {
      return;
    }
    r, e, p := ReadStarredRepositories(source);
    requests, emitted, panicked := requests + r, emitted + e, p;
  }
}
