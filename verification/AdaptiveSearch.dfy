/** Searching people within a budget: query variants run in order until the evidence saturates,
    a budget is spent, a provider fails, or the run is cancelled. */
module AdaptiveSearch {
  import opened Wrappers

  datatype Profile = Profile(url: string, details: string)

  datatype SearchStatus =
    | Success | PartialSuccess | NoResult | TimedOut | RateLimited | AuthRequired | ProviderError | InvalidResponse | Cancelled

  datatype SearchResult = SearchResult(status: SearchStatus, profiles: seq<Profile>, error: Option<string>)

  function Failure(status: SearchStatus, error: string): SearchResult {
    SearchResult(status, [], Some(error))
  }

  function CancelledResult(profiles: seq<Profile>): SearchResult {
    SearchResult(if profiles != [] then PartialSuccess else Cancelled, profiles, Some("professional_search_cancelled"))
  }

  const TimeBudgetExhausted: SearchResult := Failure(TimedOut, "professional_search_time_budget_exhausted")
  const NothingFound: SearchResult := Failure(NoResult, "exa_no_linkedin_people_results")

  // ---------- The simple form ----------

  predicate HasUrl(profiles: seq<Profile>, url: string) {
    exists i | 0 <= i < |profiles| :: profiles[i].url == url
  }

  /** Each address at its first occurrence. */
  function Dedupe(profiles: seq<Profile>): (r: seq<Profile>)
    ensures forall url :: HasUrl(r, url) <==> HasUrl(profiles, url)
    ensures forall i, j | 0 <= i < j < |r| :: r[i].url != r[j].url
  {
    if profiles == [] then []
    else
      var last := profiles[|profiles| - 1];
      var earlier := Dedupe(profiles[..|profiles| - 1]);
      var r := if HasUrl(earlier, last.url) then earlier else earlier + [last];
      assert forall url :: HasUrl(profiles, url) <==> HasUrl(profiles[..|profiles| - 1], url) || url == last.url by {
        HasUrlSnoc(profiles[..|profiles| - 1], last);
        assert profiles[..|profiles| - 1] + [last] == profiles;
      }
      assert forall url :: HasUrl(earlier + [last], url) <==> HasUrl(earlier, url) || url == last.url by {
        HasUrlSnoc(earlier, last);
      }
      r
  }

  lemma HasUrlSnoc(profiles: seq<Profile>, last: Profile)
    ensures forall url :: HasUrl(profiles + [last], url) <==> HasUrl(profiles, url) || url == last.url
  {
    var longer := profiles + [last];
    forall url
      ensures HasUrl(longer, url) <==> HasUrl(profiles, url) || url == last.url
    {
      if i :| 0 <= i < |profiles| && profiles[i].url == url {
        assert longer[i].url == url;
      }
      assert longer[|profiles|] == last;
      if i :| 0 <= i < |longer| && longer[i].url == url && i < |profiles| {
        assert profiles[i].url == url;
      }
    }
  }

  lemma DedupeSnoc(profiles: seq<Profile>, last: Profile)
    ensures Dedupe(profiles + [last]) ==
            if HasUrl(Dedupe(profiles), last.url) then Dedupe(profiles) else Dedupe(profiles) + [last]
  {
    assert (profiles + [last])[..|profiles|] == profiles;
  }

  lemma {:induction false} DedupeGrows(left: seq<Profile>, right: seq<Profile>)
    ensures Dedupe(left) <= Dedupe(left + right)
  {
    if right == [] {
      assert left + right == left;
    } else {
      var earlier, last := right[..|right| - 1], right[|right| - 1];
      DedupeGrows(left, earlier);
      assert left + right == left + earlier + [last];
      DedupeSnoc(left + earlier, last);
    }
  }

  function First<T>(items: seq<T>, count: nat): seq<T> {
    if |items| <= count then items else items[..count]
  }

  // ---------- One page ----------

  const MAX_PEOPLE_RESULTS: nat := 5

  /** What one request brings back: nothing, since it raised; a response that is refused for its
      status or its payload; or result items, some of which may not parse as profiles. */
  datatype Reply = FetchFailed(failure: SearchResult) | Refused(failure: SearchResult) | Items(items: seq<Option<Profile>>)

  datatype PageWorld = PageWorld(cancelledBefore: bool, reply: Reply, cancelledAfter: bool)

  function Parsed(items: seq<Option<Profile>>): seq<Profile> {
    if items == [] then []
    else
      Parsed(items[..|items| - 1]) + (if items[|items| - 1].Some? then [items[|items| - 1].value] else [])
  }

  predicate PageWorldOk(w: PageWorld) {
    !w.reply.Items? ==>
      w.reply.failure.profiles == [] && !w.reply.failure.status.Success? && !w.reply.failure.status.Cancelled?
      && !w.reply.failure.status.PartialSuccess?
  }

  /** A stop noticed after the response comes before what the response says; a request that
      raised is not followed by that check. */
  function PageOf(w: PageWorld, maxResults: nat): SearchResult {
    if w.cancelledBefore || (!w.reply.FetchFailed? && w.cancelledAfter) then CancelledResult([])
    else
      match w.reply
      case FetchFailed(failure) => failure
      case Refused(failure) => failure
      case Items(items) =>
        var found := First(Dedupe(Parsed(First(items, MAX_PEOPLE_RESULTS))), maxResults);
        if found == [] then NothingFound else SearchResult(Success, found, None)
  }

  /** The number of gateway calls of one page: none when cancelled beforehand. */
  function PageCalls(w: PageWorld): nat {
    if w.cancelledBefore then 0 else 1
  }

  method SearchPage(w: PageWorld, maxResults: nat) returns (result: SearchResult, calls: nat)
    requires 1 <= maxResults <= MAX_PEOPLE_RESULTS
    ensures result == PageOf(w, maxResults) && calls == PageCalls(w)
  {
    hide Dedupe, HasUrl, Parsed;
    if w.cancelledBefore {
      return CancelledResult([]), 0;
    }
    calls := 1;
    if w.reply.FetchFailed? {
      return w.reply.failure, calls;
    }
    if w.cancelledAfter {
      return CancelledResult([]), calls;
    }
    if w.reply.Refused? {
      return w.reply.failure, calls;
    }
    var items := First(w.reply.items, MAX_PEOPLE_RESULTS);
    var profiles: seq<Profile> := [];
    var seen: set<string> := {};
    NoProfiles();
    for i := 0 to |items|
      invariant profiles == Dedupe(Parsed(items[..i])) && |profiles| < maxResults
      invariant forall url :: url in seen <==> HasUrl(profiles, url)
    {
      ParsedNext(items, i);
      if items[i].None? {
        continue;
      }
      DedupeSnoc(Parsed(items[..i]), items[i].value);
      if items[i].value.url in seen {
        continue;
      }
      HasUrlSnoc(profiles, items[i].value);
      seen := seen + {items[i].value.url};
      profiles := profiles + [items[i].value];
      if |profiles| >= maxResults {
        ParsedSplit(items, i + 1);
        DedupeGrows(Parsed(items[..i + 1]), Parsed(items[i + 1..]));
        return SearchResult(Success, profiles, None), calls;
      }
    }
    assert items[..|items|] == items;
    if profiles == [] {
      return NothingFound, calls;
    }
    return SearchResult(Success, profiles, None), calls;
  }

  lemma ParsedNext(items: seq<Option<Profile>>, i: nat)
    requires i < |items|
    ensures Parsed(items[..i + 1]) == if items[i].Some? then Parsed(items[..i]) + [items[i].value] else Parsed(items[..i])
  {
    assert items[..i + 1][..i] == items[..i];
  }

  lemma NoProfiles()
    ensures Parsed([]) == [] && Dedupe([]) == [] && forall url :: !HasUrl([], url)
  {}

  lemma {:induction false} ParsedSplit(items: seq<Option<Profile>>, n: nat)
    requires n <= |items|
    ensures Parsed(items) == Parsed(items[..n]) + Parsed(items[n..])
  {
    if n == |items| {
      assert items[..n] == items;
    } else {
      var shorter := items[..|items| - 1];
      ParsedSplit(shorter, n);
      assert shorter[..n] == items[..n] && items[n..][..|items| - n - 1] == shorter[n..];
      assert items[n..][|items| - n - 1] == items[|items| - 1];
    }
  }

  // ---------- The adaptive search ----------

  datatype Budget = Budget(requests: int, profiles: int, seconds: real, stagnation: int, perQuery: int)
  {
    predicate Valid() {
      && 1 <= requests <= 64
      && 1 <= profiles <= 50
      && 0.0 < seconds <= 300.0
      && 1 <= stagnation <= 6
      && 1 <= perQuery <= MAX_PEOPLE_RESULTS
    }
  }

  /** The world as the search meets it: for each query whether a stop was requested before it,
      the seconds elapsed at that moment, and what its page returns. */
  datatype Query = Query(stopped: bool, elapsed: real, world: PageWorld)

  function Page(queries: seq<Query>, b: Budget, i: nat): SearchResult
    requires i < |queries| && b.Valid()
  {
    PageOf(queries[i].world, b.perQuery)
  }

  /** The profiles of the successful pages among the first `n` queries, in order. */
  function Gathered(queries: seq<Query>, b: Budget, n: nat): seq<Profile>
    requires n <= |queries| && b.Valid()
  {
    if n == 0 then []
    else Gathered(queries, b, n - 1) + (if Page(queries, b, n - 1).status.Success? then Page(queries, b, n - 1).profiles else [])
  }

  function Kept(queries: seq<Query>, b: Budget, n: nat): seq<Profile>
    requires n <= |queries| && b.Valid()
  {
    First(Dedupe(Gathered(queries, b, n)), b.profiles)
  }

  /** How many of the latest queries brought nothing new. */
  function Stagnation(queries: seq<Query>, b: Budget, n: nat): nat
    requires n <= |queries| && b.Valid()
  {
    if n == 0 || |Kept(queries, b, n)| > |Kept(queries, b, n - 1)| then 0 else Stagnation(queries, b, n - 1) + 1
  }

  predicate Serious(status: SearchStatus) {
    !status.Success? && !status.NoResult?
  }

  predicate Ended(queries: seq<Query>, b: Budget, n: nat)
    requires n <= |queries| && b.Valid()
  {
    n > 0 && (Serious(Page(queries, b, n - 1).status) || Stagnation(queries, b, n) >= b.stagnation)
  }

  /** Before query `n`: the budget of profiles is reached, or the time is up. */
  predicate Full(queries: seq<Query>, b: Budget, n: nat)
    requires n <= |queries| && b.Valid()
  {
    |Kept(queries, b, n)| >= b.profiles
  }

  function CallsOf(queries: seq<Query>, n: nat): nat
    requires n <= |queries|
  {
    if n == 0 then 0 else CallsOf(queries, n - 1) + PageCalls(queries[n - 1].world)
  }

  lemma {:induction false} CallsAreFew(queries: seq<Query>, n: nat)
    requires n <= |queries|
    ensures CallsOf(queries, n) <= n
  {
    if n > 0 {
      CallsAreFew(queries, n - 1);
    }
  }

  /** How a search ended after `n` completed queries. */
  datatype Ending = WasCancelled | RanOutOfTime | Finished

  predicate SeriousAmong(queries: seq<Query>, b: Budget, n: nat)
    requires n <= |queries| && b.Valid()
  {
    exists i | 0 <= i < n :: Serious(Page(queries, b, i).status)
  }

  /** Query `i` is run, and the search goes on past it. */
  predicate Passed(queries: seq<Query>, b: Budget, i: nat)
    requires i < |queries| && b.Valid()
  {
    && !queries[i].stopped && queries[i].elapsed < b.seconds
    && !Full(queries, b, i) && !Ended(queries, b, i)
    && !Page(queries, b, i).status.Cancelled?
  }

  /** The search ran exactly the queries that come before the first reason to stop. */
  predicate StoppedRightly(queries: seq<Query>, b: Budget, n: nat, ending: Ending)
    requires n <= |queries| && b.Valid()
  {
    && n <= b.requests
    && (forall i | 0 <= i < n :: Passed(queries, b, i))
    && match ending
       case WasCancelled =>
         && n < |queries| && n < b.requests && !Ended(queries, b, n)
         && (queries[n].stopped || (queries[n].elapsed < b.seconds && !Full(queries, b, n) && Page(queries, b, n).status.Cancelled?))
       case RanOutOfTime =>
         n < |queries| && n < b.requests && !Ended(queries, b, n) && !queries[n].stopped && queries[n].elapsed >= b.seconds
       case Finished =>
         || n == |queries| || n == b.requests || Ended(queries, b, n)
         || (!queries[n].stopped && queries[n].elapsed < b.seconds && Full(queries, b, n))
  }

  /** The pages that did not succeed, in order. */
  function FailurePages(queries: seq<Query>, b: Budget, n: nat): seq<SearchResult>
    requires n <= |queries| && b.Valid()
  {
    if n == 0 then []
    else
      FailurePages(queries, b, n - 1) + (if Page(queries, b, n - 1).status.Success? then [] else [Page(queries, b, n - 1)])
  }

  function Failures(queries: seq<Query>, b: Budget, n: nat, ending: Ending): seq<SearchResult>
    requires n <= |queries| && b.Valid()
  {
    FailurePages(queries, b, n) + (if ending.RanOutOfTime? then [TimeBudgetExhausted] else [])
  }

  function FirstSerious(failures: seq<SearchResult>): (f: Option<SearchResult>)
    ensures f.None? <==> forall i | 0 <= i < |failures| :: failures[i].status.NoResult?
    ensures f.Some? ==> exists k | 0 <= k < |failures| ::
      failures[k] == f.value && !f.value.status.NoResult? && forall i | 0 <= i < k :: failures[i].status.NoResult?
  {
    if failures == [] then None
    else if !failures[0].status.NoResult? then Some(failures[0])
    else
      var later := FirstSerious(failures[1..]);
      assert forall i | 1 <= i < |failures| :: failures[i] == failures[1..][i - 1];
      assert later.Some? ==> exists k | 1 <= k < |failures| ::
        failures[k] == later.value && forall i | 0 <= i < k :: failures[i].status.NoResult? by {
        if later.Some? {
          var k :| 0 <= k < |failures| - 1 && failures[1..][k] == later.value
            && forall i | 0 <= i < k :: failures[1..][i].status.NoResult?;
          assert failures[k + 1] == later.value;
        }
      }
      later
  }

  function Priority(status: SearchStatus): nat {
    match status
    case AuthRequired => 0
    case RateLimited => 1
    case TimedOut => 2
    case ProviderError => 3
    case InvalidResponse => 4
    case NoResult => 5
    case _ => 99
  }

  /** Failures in the order of their urgency; what is neither of these is the least urgent. */
  lemma PriorityOrder()
    ensures Priority(AuthRequired) < Priority(RateLimited) < Priority(TimedOut) < Priority(ProviderError)
    ensures Priority(ProviderError) < Priority(InvalidResponse) < Priority(NoResult)
    ensures forall status | status in {Success, PartialSuccess, Cancelled} :: Priority(NoResult) < Priority(status)
  {}

  /** The most urgent failure; of equally urgent ones the first. */
  function HighestPriority(failures: seq<SearchResult>): (f: SearchResult)
    requires failures != []
    ensures exists k | 0 <= k < |failures| ::
      && failures[k] == f
      && (forall i | 0 <= i < |failures| :: Priority(f.status) <= Priority(failures[i].status))
      && (forall i | 0 <= i < k :: Priority(f.status) < Priority(failures[i].status))
  {
    if |failures| == 1 then failures[0]
    else
      var earlier := failures[..|failures| - 1];
      var best, last := HighestPriority(earlier), failures[|failures| - 1];
      assert forall i | 0 <= i < |earlier| :: earlier[i] == failures[i];
      if Priority(last.status) < Priority(best.status) then last else best
  }

  function Summary(profiles: seq<Profile>, failures: seq<SearchResult>): SearchResult {
    if profiles != [] then
      match FirstSerious(failures)
      case Some(serious) => SearchResult(PartialSuccess, profiles, serious.error)
      case None => SearchResult(Success, profiles, None)
    else if failures != [] then HighestPriority(failures)
    else NothingFound
  }

  lemma {:induction false} FailurePagesAre(queries: seq<Query>, b: Budget, n: nat)
    requires n <= |queries| && b.Valid()
    ensures SeriousAmong(queries, b, n) <==> FirstSerious(FailurePages(queries, b, n)).Some?
    ensures forall i | 0 <= i < |FailurePages(queries, b, n)| ::
      exists j | 0 <= j < n :: FailurePages(queries, b, n)[i] == Page(queries, b, j) && !Page(queries, b, j).status.Success?
  {
    hide PageOf;
    if n > 0 {
      FailurePagesAre(queries, b, n - 1);
      var pages, earlier := FailurePages(queries, b, n), FailurePages(queries, b, n - 1);
      assert forall i | 0 <= i < |earlier| :: pages[i] == earlier[i];
      if !Page(queries, b, n - 1).status.Success? {
        assert pages[|earlier|] == Page(queries, b, n - 1);
      }
    }
  }

  /** The simple form of the search: keep the first distinct profiles of the pages of the
      queries that ran, and call it a success exactly when there are some and nothing failed
      beyond finding no result. */
  lemma SummaryMeans(queries: seq<Query>, b: Budget, n: nat, ending: Ending)
    requires n <= |queries| && b.Valid()
    requires forall i | 0 <= i < |queries| :: PageWorldOk(queries[i].world)
    ensures var result := Summary(Kept(queries, b, n), Failures(queries, b, n, ending));
      && result.profiles == Kept(queries, b, n)
      && (result.status.Success? <==>
            Kept(queries, b, n) != [] && !SeriousAmong(queries, b, n) && !ending.RanOutOfTime?)
      && (result.status.PartialSuccess? ==> Kept(queries, b, n) != [])
      && (result.status.PartialSuccess? <==>
            Kept(queries, b, n) != [] && (SeriousAmong(queries, b, n) || ending.RanOutOfTime?))
      && (result.status.Success? ==> result.error == None)
      && (result.status.PartialSuccess? ==> exists k | 0 <= k < |Failures(queries, b, n, ending)| ::
            && Failures(queries, b, n, ending)[k].error == result.error
            && !Failures(queries, b, n, ending)[k].status.NoResult?
            && forall i | 0 <= i < k :: Failures(queries, b, n, ending)[i].status.NoResult?)
  {
    hide Kept, Failures, SeriousAmong, FirstSerious, PageWorldOk;
    var failures := Failures(queries, b, n, ending);
    FailuresAre(queries, b, n, ending);
    if failures != [] {
      var k :| 0 <= k < |failures| && failures[k] == HighestPriority(failures);
    }
  }

  lemma FailuresAre(queries: seq<Query>, b: Budget, n: nat, ending: Ending)
    requires n <= |queries| && b.Valid()
    requires forall i | 0 <= i < |queries| :: PageWorldOk(queries[i].world)
    ensures var failures := Failures(queries, b, n, ending);
      && (forall i | 0 <= i < |failures| :: FailureOk(failures[i]) || failures[i].status.Cancelled?)
      && (forall i | 0 <= i < |failures| :: failures[i].profiles == [])
      && (FirstSerious(failures).Some? <==> SeriousAmong(queries, b, n) || ending.RanOutOfTime?)
  {
    hide FailurePages, SeriousAmong, PageOf;
    FailurePagesAre(queries, b, n);
    var failures, pages := Failures(queries, b, n, ending), FailurePages(queries, b, n);
    assert forall i | 0 <= i < |pages| :: failures[i] == pages[i];
    if ending.RanOutOfTime? {
      assert failures[|pages|] == TimeBudgetExhausted;
    } else {
      assert failures == pages;
    }
    forall i | 0 <= i < |pages|
      ensures pages[i].profiles == [] && !pages[i].status.Success? && !pages[i].status.PartialSuccess?
    {
      var j :| 0 <= j < n && pages[i] == Page(queries, b, j) && !Page(queries, b, j).status.Success?;
      FailedPage(queries, b, j);
    }
  }

  lemma FailedPage(queries: seq<Query>, b: Budget, j: nat)
    requires j < |queries| && b.Valid() && PageWorldOk(queries[j].world) && !Page(queries, b, j).status.Success?
    ensures Page(queries, b, j).profiles == [] && !Page(queries, b, j).status.PartialSuccess?
  {
    hide Dedupe, Parsed;
  }

  /** Add the new profiles of one page, up to the budget. */
  method AddPage(ghost gathered: seq<Profile>, budget: nat, profiles: seq<Profile>, seen: set<string>, page: seq<Profile>)
    returns (more: seq<Profile>, urls: set<string>)
    requires profiles == Dedupe(gathered) && |profiles| < budget
    requires forall url :: url in seen <==> HasUrl(profiles, url)
    ensures more == First(Dedupe(gathered + page), budget)
    ensures |more| < budget ==> more == Dedupe(gathered + page)
    ensures |more| >= |profiles| && |more| <= budget
    ensures forall url :: url in urls <==> HasUrl(more, url)
  {
    hide Dedupe, HasUrl;
    more, urls := profiles, seen;
    assert gathered + page[..0] == gathered;
    for i := 0 to |page|
      invariant more == Dedupe(gathered + page[..i]) && |profiles| <= |more| < budget
      invariant forall url :: url in urls <==> HasUrl(more, url)
    {
      assert gathered + page[..i + 1] == gathered + page[..i] + [page[i]];
      DedupeSnoc(gathered + page[..i], page[i]);
      if page[i].url in urls {
        continue;
      }
      HasUrlSnoc(more, page[i]);
      urls := urls + {page[i].url};
      more := more + [page[i]];
      if |more| >= budget {
        assert gathered + page == gathered + page[..i + 1] + page[i + 1..];
        DedupeGrows(gathered + page[..i + 1], page[i + 1..]);
        return;
      }
    }
    assert page[..|page|] == page;
  }

  /** The local variables of the loop. */
  datatype Progress = Progress(
    profiles: seq<Profile>, seen: set<string>, failures: seq<SearchResult>, stagnant: nat, calls: nat)

  /** They say what the first `n` queries have brought. */
  ghost predicate Reached(queries: seq<Query>, b: Budget, n: nat, p: Progress)
    requires n <= |queries| && b.Valid()
  {
    && p.profiles == Kept(queries, b, n)
    && (|p.profiles| < b.profiles ==> p.profiles == Dedupe(Gathered(queries, b, n)))
    && (forall url :: url in p.seen <==> HasUrl(p.profiles, url))
    && p.failures == FailurePages(queries, b, n)
    && p.stagnant == Stagnation(queries, b, n)
    && p.calls == CallsOf(queries, n) <= n
  }

  /** What one more query does to the totals. */
  lemma NextQuery(queries: seq<Query>, b: Budget, n: nat)
    requires n < |queries| && b.Valid()
    ensures var page := Page(queries, b, n);
      && (page.status.Success? ==> Gathered(queries, b, n + 1) == Gathered(queries, b, n) + page.profiles)
      && (!page.status.Success? ==> Kept(queries, b, n + 1) == Kept(queries, b, n) && Gathered(queries, b, n + 1) == Gathered(queries, b, n))
      && Kept(queries, b, n + 1) == First(Dedupe(Gathered(queries, b, n + 1)), b.profiles)
      && Stagnation(queries, b, n + 1) ==
           (if |Kept(queries, b, n + 1)| > |Kept(queries, b, n)| then 0 else Stagnation(queries, b, n) + 1)
      && FailurePages(queries, b, n + 1) ==
           FailurePages(queries, b, n) + (if page.status.Success? then [] else [page])
      && CallsOf(queries, n + 1) == CallsOf(queries, n) + PageCalls(queries[n].world)
      && (Ended(queries, b, n + 1) <==> Serious(page.status) || Stagnation(queries, b, n + 1) >= b.stagnation)
  {
    hide PageOf, Dedupe, PageCalls;
    assert Gathered(queries, b, n) + [] == Gathered(queries, b, n);
  }

  predicate AcceptedCall(queries: seq<Query>, b: Budget) {
    b.Valid() && 1 <= |queries| <= 36
  }

  /** Run query `n`. No progress means that a stop was noticed while it ran. */
  method RunQuery(queries: seq<Query>, b: Budget, n: nat, p: Progress)
    returns (next: Option<Progress>, failed: bool, calls: nat)
    requires n < |queries| && b.Valid() && Reached(queries, b, n, p) && |p.profiles| < b.profiles
    ensures next.None? <==> Page(queries, b, n).status.Cancelled?
    ensures next.Some? ==>
      && Reached(queries, b, n + 1, next.value) && calls == next.value.calls
      && (failed <==> Serious(Page(queries, b, n).status))
      && (Ended(queries, b, n + 1) <==> failed || next.value.stagnant >= b.stagnation)
    ensures calls <= n + 1
  {
    hide Dedupe, HasUrl, PageOf, PageCalls, Stagnation, Kept, Gathered, FailurePages, CallsOf, Ended;
    NextQuery(queries, b, n);
    CallsAreFew(queries, n + 1);
    var page, made := SearchPage(queries[n].world, b.perQuery);
    calls := p.calls + made;
    failed := false;
    if page.status.Cancelled? {
      next := None;
    } else if page.status.Success? {
      var profiles, seen := AddPage(Gathered(queries, b, n), b.profiles, p.profiles, p.seen, page.profiles);
      next := Some(Progress(profiles, seen, p.failures, if |profiles| > |p.profiles| then 0 else p.stagnant + 1, calls));
      assert p.failures + [] == p.failures;
    } else {
      failed := !page.status.NoResult?;
      next := Some(Progress(p.profiles, p.seen, p.failures + [page], p.stagnant + 1, calls));
    }
  }

  /** A search that ran the right queries and reports what they brought. */
  predicate Correct(queries: seq<Query>, b: Budget, result: SearchResult, ran: nat, calls: nat, ending: Ending)
    requires b.Valid()
  {
    && ran <= |queries| && StoppedRightly(queries, b, ran, ending)
    && calls <= b.requests && calls <= |queries|
    && result == if ending.WasCancelled? then
                   SearchResult(if Kept(queries, b, ran) == [] then Cancelled else PartialSuccess, Kept(queries, b, ran),
                                Some("professional_search_cancelled"))
                 else Summary(Kept(queries, b, ran), Failures(queries, b, ran, ending))
  }

  /** The first `n` queries were all run and passed, and nothing has ended the search. */
  ghost predicate Going(queries: seq<Query>, b: Budget, n: nat, p: Progress)
    requires b.Valid()
  {
    && n <= |queries| && n <= b.requests
    && (forall i | 0 <= i < n :: Passed(queries, b, i))
    && Reached(queries, b, n, p)
  }

  method SearchAdaptive(queries: seq<Query>, b: Budget)
    returns (result: SearchResult, ran: nat, calls: nat, ending: Ending)
    ensures !AcceptedCall(queries, b) ==> result == Failure(InvalidResponse, "invalid_adaptive_budget") && calls == 0
    ensures AcceptedCall(queries, b) ==> Correct(queries, b, result, ran, calls, ending)
  {
    if !AcceptedCall(queries, b) {
      return Failure(InvalidResponse, "invalid_adaptive_budget"), 0, 0, Finished;
    }
    hide Going, Reached, Ended, Summary, Kept, Page, Serious, Correct, CancelledResult, Failure;
    var p := Progress([], {}, [], 0, 0);
    ran, ending := 0, Finished;
    StartOfSearch(queries, b);
    while ran < |queries| && ran < b.requests
      invariant ran <= |queries| && ran <= b.requests
      invariant Going(queries, b, ran, p) && !Ended(queries, b, ran)
      decreases |queries| - ran
    {
      Exits(queries, b, ran, p, p.calls);
      if queries[ran].stopped {
        return CancelledResult(p.profiles), ran, p.calls, WasCancelled;
      }
      if queries[ran].elapsed >= b.seconds {
        ending := RanOutOfTime;
        break;
      }
      if b.profiles - |p.profiles| <= 0 {
        break;
      }
      UnpackGoing(queries, b, ran, p);
      var next, failed, made := RunQuery(queries, b, ran, p);
      Exits(queries, b, ran, p, made);
      if next.None? {
        return CancelledResult(p.profiles), ran, made, WasCancelled;
      }
      GoesOn(queries, b, ran, p, next.value);
      p := next.value;
      ran := ran + 1;
      if failed || p.stagnant >= b.stagnation {
        break;
      }
    }
    var failures := if ending.RanOutOfTime? then p.failures + [TimeBudgetExhausted] else p.failures;
    result, calls := Summary(p.profiles, failures), p.calls;
    if ending.Finished? {
      FinalExit(queries, b, ran, p);
    }
  }

  lemma StartOfSearch(queries: seq<Query>, b: Budget)
    requires b.Valid()
    ensures Going(queries, b, 0, Progress([], {}, [], 0, 0)) && !Ended(queries, b, 0)
  {}

  lemma UnpackGoing(queries: seq<Query>, b: Budget, n: nat, p: Progress)
    requires b.Valid() && Going(queries, b, n, p)
    ensures n <= |queries| && Reached(queries, b, n, p)
  {
    hide Reached;
  }

  /** The exits around query `n`. */
  lemma Exits(queries: seq<Query>, b: Budget, n: nat, p: Progress, calls: nat)
    requires b.Valid() && n < |queries| && n < b.requests && Going(queries, b, n, p) && !Ended(queries, b, n)
    requires calls <= n + 1
    ensures p.calls <= n
    ensures queries[n].stopped ==> Correct(queries, b, CancelledResult(p.profiles), n, calls, WasCancelled)
    ensures !queries[n].stopped && queries[n].elapsed >= b.seconds ==>
              Correct(queries, b, Summary(p.profiles, p.failures + [TimeBudgetExhausted]), n, calls, RanOutOfTime)
    ensures !queries[n].stopped && queries[n].elapsed < b.seconds && |p.profiles| >= b.profiles ==>
              Correct(queries, b, Summary(p.profiles, p.failures), n, calls, Finished)
    ensures (!queries[n].stopped && queries[n].elapsed < b.seconds && |p.profiles| < b.profiles
             && Page(queries, b, n).status.Cancelled?) ==>
              Correct(queries, b, CancelledResult(p.profiles), n, calls, WasCancelled)
  {
    hide Kept, Page, Passed, Ended, FailurePages, Summary, HasUrl, Gathered, Stagnation;
    assert p.failures + [] == p.failures;
  }

  /** The exit after the last query. */
  lemma FinalExit(queries: seq<Query>, b: Budget, n: nat, p: Progress)
    requires b.Valid() && Going(queries, b, n, p)
    ensures n == |queries| || n == b.requests || Ended(queries, b, n) ==>
              Correct(queries, b, Summary(p.profiles, p.failures), n, p.calls, Finished)
  {
    hide Kept, Page, Passed, Ended, FailurePages, Summary, HasUrl, Gathered, Stagnation;
    assert p.failures + [] == p.failures;
  }

  lemma GoesOn(queries: seq<Query>, b: Budget, n: nat, p: Progress, next: Progress)
    requires b.Valid() && n < |queries| && n < b.requests && Going(queries, b, n, p) && !Ended(queries, b, n)
    requires !queries[n].stopped && queries[n].elapsed < b.seconds && |p.profiles| < b.profiles
    requires !Page(queries, b, n).status.Cancelled? && Reached(queries, b, n + 1, next)
    ensures Going(queries, b, n + 1, next)
  {
    hide Kept, Page, Ended, FailurePages, HasUrl, Gathered, Stagnation;
  }

  /** The world determines how many queries run and how the search ends. */
  lemma StopIsUnique(queries: seq<Query>, b: Budget, m: nat, one: Ending, n: nat, other: Ending)
    requires b.Valid() && m <= n <= |queries|
    requires StoppedRightly(queries, b, m, one) && StoppedRightly(queries, b, n, other)
    ensures m == n && one == other
  {
    hide Kept, Page, Ended;
    assert m < n ==> Passed(queries, b, m);
  }

  // ---------- The GitHub search ----------

  const MAX_USER_RESULTS: nat := 3

  /** A fetch raises, or its response is rejected, or it shows a profile. */
  datatype Outcome = Raised(failure: SearchResult) | Rejected(failure: SearchResult) | Found(profile: Profile)

  datatype Fetch = Fetch(stoppedBefore: bool, elapsed: real, outcome: Outcome, stoppedAfter: bool)
  {
    /** After a response, and only then, the session checks again whether it was stopped. */
    predicate Stopped() {
      stoppedAfter && !outcome.Raised?
    }
  }

  /** One search request, then one fetch for each login in order. */
  datatype GithubWorld = GithubWorld(
    stopped: bool, elapsed: real, searchFailure: Option<SearchResult>, stoppedAfterSearch: bool, fetches: seq<Fetch>)

  predicate GithubWorldOk(w: GithubWorld) {
    && (w.searchFailure.Some? ==> FailureOk(w.searchFailure.value))
    && (forall i | 0 <= i < |w.fetches| :: w.fetches[i].outcome.Found? || FailureOk(w.fetches[i].outcome.failure))
  }

  predicate FailureOk(f: SearchResult) {
    f.profiles == [] && !f.status.Success? && !f.status.PartialSuccess? && !f.status.Cancelled?
  }

  /** How many logins are fetched: one request of the budget is the search itself. */
  function MaxFetches(maxProfiles: nat, budget: Option<nat>): (n: nat)
    ensures n <= maxProfiles && (budget.Some? && budget.value > 0 ==> n < budget.value)
    ensures n == maxProfiles || (budget.Some? && (n + 1 == budget.value || budget.value == 0))
  {
    if budget.None? || maxProfiles < budget.value then maxProfiles
    else if budget.value == 0 then 0
    else budget.value - 1
  }

  function Fetched(fetches: seq<Fetch>): seq<Profile> {
    if fetches == [] then []
    else
      var last := fetches[|fetches| - 1].outcome;
      Fetched(fetches[..|fetches| - 1]) + (if last.Found? then [last.profile] else [])
  }

  /** The failures of the fetches, in order. */
  function FetchFailures(fetches: seq<Fetch>): seq<SearchResult> {
    if fetches == [] then []
    else
      var last := fetches[|fetches| - 1].outcome;
      FetchFailures(fetches[..|fetches| - 1]) + (if last.Found? then [] else [last.failure])
  }

  predicate Late(seconds: Option<real>, elapsed: real) {
    seconds.Some? && elapsed >= seconds.value
  }

  predicate FetchPassed(fetch: Fetch, seconds: Option<real>) {
    !fetch.stoppedBefore && !Late(seconds, fetch.elapsed) && !fetch.Stopped()
  }

  /** The result after `n` completed fetches. */
  function GithubResult(w: GithubWorld, n: nat, late: bool): SearchResult
    requires n <= |w.fetches|
  {
    GithubSummary(
      Dedupe(Fetched(w.fetches[..n])),
      FetchFailures(w.fetches[..n]) + (if late then [TimeBudgetExhausted] else [])
        + (if w.searchFailure.Some? then [w.searchFailure.value] else []))
  }

  /** The session ran exactly the fetches before the first reason to stop, and reports them. */
  predicate GithubCorrect(w: GithubWorld, limit: nat, seconds: Option<real>, result: SearchResult, calls: nat, n: nat) {
    if w.stopped then result == CancelledResult([]) && calls == 0 && n == 0
    else if Late(seconds, w.elapsed) then result == TimeBudgetExhausted && calls == 0 && n == 0
    else if w.stoppedAfterSearch then result == CancelledResult([]) && calls == 1 && n == 0
    else
      && n <= |w.fetches| && n <= limit
      && (forall i | 0 <= i < n :: FetchPassed(w.fetches[i], seconds))
      && if n == |w.fetches| || n == limit then result == GithubResult(w, n, false) && calls == 1 + n
         else if w.fetches[n].stoppedBefore then result == CancelledResult(Dedupe(Fetched(w.fetches[..n]))) && calls == 1 + n
         else if Late(seconds, w.fetches[n].elapsed) then result == GithubResult(w, n, true) && calls == 1 + n
         else w.fetches[n].Stopped() && result == CancelledResult(Dedupe(Fetched(w.fetches[..n]))) && calls == 2 + n
  }

  /** The requests of a session never exceed its budget, and the profiles are the distinct ones
      of the logins that were fetched, in order. */
  method SearchGithub(w: GithubWorld, maxProfiles: nat, budget: Option<nat>, seconds: Option<real>)
    returns (result: SearchResult, calls: nat, fetched: nat)
    requires 1 <= maxProfiles <= MAX_USER_RESULTS && (budget.Some? ==> 2 <= budget.value <= MAX_USER_RESULTS + 1)
    requires seconds.Some? ==> 0.0 < seconds.value <= 300.0
    ensures calls <= maxProfiles + 1 && (budget.Some? ==> calls <= budget.value)
    ensures GithubCorrect(w, MaxFetches(maxProfiles, budget), seconds, result, calls, fetched)
  {
    hide Dedupe, HasUrl, Fetched, FetchFailures, GithubSummary, MaxFetches;
    calls, fetched := 0, 0;
    NothingFetched(w.fetches);
    if w.stopped {
      return CancelledResult([]), calls, fetched;
    }
    if seconds.Some? && w.elapsed >= seconds.value {
      return TimeBudgetExhausted, calls, fetched;
    }
    calls := 1;
    if w.stoppedAfterSearch {
      return CancelledResult([]), calls, fetched;
    }
    var profiles: seq<Profile> := [];
    var seen: set<string> := {};
    var failures: seq<SearchResult> := [];
    var limit := MaxFetches(maxProfiles, budget);
    var timedOut := false;
    while fetched < |w.fetches| && fetched < limit
      invariant fetched <= |w.fetches| && fetched <= limit && calls == 1 + fetched && !timedOut
      invariant forall i | 0 <= i < fetched :: FetchPassed(w.fetches[i], seconds)
      invariant profiles == Dedupe(Fetched(w.fetches[..fetched]))
      invariant forall url :: url in seen <==> HasUrl(profiles, url)
      invariant failures == FetchFailures(w.fetches[..fetched])
    {
      var fetch := w.fetches[fetched];
      if fetch.stoppedBefore {
        return CancelledResult(profiles), calls, fetched;
      }
      if seconds.Some? && fetch.elapsed >= seconds.value {
        timedOut := true;
        break;
      }
      calls := calls + 1;
      FetchedNext(w.fetches, fetched);
      if fetch.outcome.Raised? {
        failures := failures + [fetch.outcome.failure];
        fetched := fetched + 1;
        continue;
      }
      if fetch.stoppedAfter {
        return CancelledResult(profiles), calls, fetched;
      }
      fetched := fetched + 1;
      if fetch.outcome.Rejected? {
        failures := failures + [fetch.outcome.failure];
        continue;
      }
      DedupeSnoc(Fetched(w.fetches[..fetched - 1]), fetch.outcome.profile);
      if fetch.outcome.profile.url in seen {
        continue;
      }
      HasUrlSnoc(profiles, fetch.outcome.profile);
      seen := seen + {fetch.outcome.profile.url};
      profiles := profiles + [fetch.outcome.profile];
    }
    failures := failures + (if timedOut then [TimeBudgetExhausted] else []) +
                (if w.searchFailure.Some? then [w.searchFailure.value] else []);
    result := GithubSummary(profiles, failures);
  }

  /** A session that was neither stopped nor late at its start succeeds exactly when it found a
      profile and nothing failed beyond finding no result. */
  lemma GithubSucceedsWhen(w: GithubWorld, n: nat, late: bool)
    requires GithubWorldOk(w) && n <= |w.fetches|
    ensures GithubResult(w, n, late).profiles == Dedupe(Fetched(w.fetches[..n]))
    ensures GithubResult(w, n, late).status.Success? <==>
      && Dedupe(Fetched(w.fetches[..n])) != [] && !late
      && (w.searchFailure.Some? ==> w.searchFailure.value.status.NoResult?)
      && forall i | 0 <= i < n :: !w.fetches[i].outcome.Found? ==> w.fetches[i].outcome.failure.status.NoResult?
    ensures GithubResult(w, n, late).status.PartialSuccess? <==>
      Dedupe(Fetched(w.fetches[..n])) != [] && !GithubResult(w, n, late).status.Success?
    ensures Dedupe(Fetched(w.fetches[..n])) != [] && !GithubResult(w, n, late).status.Success? ==>
      exists f: SearchResult ::
        && (f == TimeBudgetExhausted || w.searchFailure == Some(f)
            || exists i | 0 <= i < n :: !w.fetches[i].outcome.Found? && w.fetches[i].outcome.failure == f)
        && !f.status.NoResult? && GithubResult(w, n, late).error == f.error
  {
    hide Dedupe, Fetched, HasUrl, GithubSummary, FetchFailures, FailureOk;
    FetchFailuresAre(w.fetches, n);
    LateIsFailure();
    var failures := FetchFailures(w.fetches[..n]);
    var all := failures + (if late then [TimeBudgetExhausted] else []) + (if w.searchFailure.Some? then [w.searchFailure.value] else []);
    assert forall f :: f in all <==>
      f in failures || (late && f == TimeBudgetExhausted) || (w.searchFailure.Some? && f == w.searchFailure.value);
    SummarySucceeds(Dedupe(Fetched(w.fetches[..n])), all);
  }

  lemma LateIsFailure()
    ensures FailureOk(TimeBudgetExhausted) && !TimeBudgetExhausted.status.NoResult?
  {}

  lemma SummarySucceeds(profiles: seq<Profile>, failures: seq<SearchResult>)
    requires forall f | f in failures :: FailureOk(f)
    ensures GithubSummary(profiles, failures).profiles == profiles
    ensures GithubSummary(profiles, failures).status.Success? <==> profiles != [] && forall f | f in failures :: f.status.NoResult?
    ensures GithubSummary(profiles, failures).status.PartialSuccess? <==> profiles != [] && exists f | f in failures :: !f.status.NoResult?
    ensures GithubSummary(profiles, failures).status.PartialSuccess? ==>
      exists f | f in failures :: !f.status.NoResult? && f.error == GithubSummary(profiles, failures).error
  {
    var serious := SeriousOnes(failures);
    if serious != [] {
      assert serious[0] in serious;
      assert HighestPriority(serious) in serious;
    }
    if failures != [] {
      assert HighestPriority(failures) in failures;
    }
  }

  lemma {:induction false} FetchFailuresAre(fetches: seq<Fetch>, n: nat)
    requires n <= |fetches|
    ensures forall f :: f in FetchFailures(fetches[..n]) <==>
              exists i :: 0 <= i < n && !fetches[i].outcome.Found? && fetches[i].outcome.failure == f
  {
    if n > 0 {
      FetchFailuresAre(fetches, n - 1);
      assert fetches[..n][..n - 1] == fetches[..n - 1];
    }
  }

  /** Unlike the adaptive search, the most urgent serious failure is the one reported. */
  function GithubSummary(profiles: seq<Profile>, failures: seq<SearchResult>): SearchResult {
    if profiles != [] then
      var serious := SeriousOnes(failures);
      if serious == [] then SearchResult(Success, profiles, None)
      else SearchResult(PartialSuccess, profiles, HighestPriority(serious).error)
    else if failures != [] then HighestPriority(failures)
    else Failure(NoResult, "github_people_not_found")
  }

  function SeriousOnes(failures: seq<SearchResult>): (r: seq<SearchResult>)
    ensures forall f :: f in r <==> f in failures && !f.status.NoResult?
  {
    if failures == [] then []
    else (if failures[0].status.NoResult? then [] else [failures[0]]) + SeriousOnes(failures[1..])
  }

  lemma NothingFetched(fetches: seq<Fetch>)
    ensures Dedupe(Fetched(fetches[..0])) == [] && FetchFailures(fetches[..0]) == [] && forall url :: !HasUrl([], url)
  {}

  lemma FetchedNext(fetches: seq<Fetch>, i: nat)
    requires i < |fetches|
    ensures Fetched(fetches[..i + 1]) ==
            if fetches[i].outcome.Found? then Fetched(fetches[..i]) + [fetches[i].outcome.profile] else Fetched(fetches[..i])
    ensures FetchFailures(fetches[..i + 1]) ==
            if fetches[i].outcome.Found? then FetchFailures(fetches[..i]) else FetchFailures(fetches[..i]) + [fetches[i].outcome.failure]
  {
    assert fetches[..i + 1][..i] == fetches[..i];
  }

  // ---------- The lease of a search ----------

  function Clamp(x: real, low: real, high: real): real
    requires low <= high
  {
    if x < low then low else if x > high then high else x
  }

  function ClampInt(x: int, low: int, high: int): int
    requires low <= high
  {
    if x < low then low else if x > high then high else x
  }

  function Ceiling(x: real): int {
    -(-x).Floor
  }

  function RealMin(a: real, b: real): real {
    if a < b then a else b
  }

  /** What is left of the collection window, at least a tenth of a second. */
  function Remaining(deadline: real, now: real): real {
    if deadline - now < 0.1 then 0.1 else deadline - now
  }

  /** The time budget that leasing stores for an adaptive search. */
  function StoredBudget(planned: real, deadline: real, now: real): real {
    RealMin(Clamp(planned, 0.1, 300.0), Remaining(deadline, now))
  }

  /** The budget that the search itself then uses. */
  function UsedBudget(planned: real, deadline: real, now: real): real {
    Clamp(StoredBudget(planned, deadline, now), 0.1, 300.0)
  }

  function LeaseSeconds(configured: int, adaptive: bool, planned: real, deadline: real, now: real): int {
    var base := ClampInt(configured, 15, 180);
    if !adaptive then base
    else
      var wanted := Ceiling(StoredBudget(planned, deadline, now)) + 15;
      var capped := if wanted > 315 then 315 else wanted;
      if base < capped then capped else base
  }

  /** The lease of an adaptive search outlasts the time budget the search uses by at least 15
      seconds, whatever is configured; and the cap on leases never cuts that short. */
  lemma LeaseOutlastsBudget(configured: int, planned: real, deadline: real, now: real)
    ensures LeaseSeconds(configured, true, planned, deadline, now) as real >= UsedBudget(planned, deadline, now) + 15.0
    ensures UsedBudget(planned, deadline, now) == StoredBudget(planned, deadline, now)
    ensures deadline - now >= 0.1 ==> now + UsedBudget(planned, deadline, now) <= deadline
    ensures LeaseSeconds(configured, true, planned, deadline, now) <= 315
    ensures var lease := LeaseSeconds(configured, true, planned, deadline, now);
      && 15 <= lease
      && (lease as real < UsedBudget(planned, deadline, now) + 16.0
          || (lease <= 180 && (lease == configured || configured < 15 || configured > 180)))
    ensures var lease := LeaseSeconds(configured, false, planned, deadline, now);
      15 <= lease <= 180 && (lease == configured || (lease == 15 && configured < 15) || (lease == 180 && configured > 180))
  {
    var budget := StoredBudget(planned, deadline, now);
    assert Ceiling(budget) as real >= budget;
    assert Ceiling(budget) <= 300;
  }
}
