/**
 * The remote-facing half of the issue closer: building the issue search request,
 * paging through the search results with a hard page cap, projecting every hit
 * into an `IssueCloseData` record, and closing one issue with its failure caught.
 *
 * The remote search and the remote update are oracles: total functions passed in
 * as parameters, so the model fixes what the code does with their answers and
 * nothing about the answers themselves.
 */
module GitHubHelper {
  import opened Outcomes

  /** Page size asked of the search endpoint. */
  const RequestsPerPage: int := 100

  /** The loop stops once the request's page counter has reached this value. */
  const MaxPage: int := 10

  /** The page a fresh search request starts at (the search library's default). */
  const DefaultPage: int := 1

  datatype ItemState = Open | Closed

  datatype IssueTypeQualifier = PullRequest | Issue

  /** The fields of a remote issue that the tool reads. */
  datatype RemoteIssue = RemoteIssue(number: int, title: string, htmlUrl: string)

  /** The exported record: enough to address the issue again when closing it. */
  datatype IssueCloseData = IssueCloseData(owner: string, repo: string, number: int, title: string, url: string)

  /** The body of an update request; the tool only ever sets the state. */
  datatype IssueUpdate = IssueUpdate(state: ItemState)

  /** A snapshot of a search request's fields: what one call of the search endpoint is asked. */
  datatype SearchQuery = SearchQuery(
    repos: seq<(string, string)>,
    itemType: Option<IssueTypeQualifier>,
    state: Option<ItemState>,
    labels: Option<seq<string>>,
    page: int,
    perPage: int)

  /** The remote search: one page of hits for a request, or the exception's message. */
  type Searcher = SearchQuery -> Result<seq<RemoteIssue>, string>

  /** The remote update of one issue (owner, repo, number, changes): it succeeds or throws. */
  type Updater = (string, string, int, IssueUpdate) -> Result<(), string>

  /** The mutable search request that `CreateSearchRequest` fills in and the paging loop advances. */
  class SearchIssuesRequest {
    var repos: seq<(string, string)>
    var itemType: Option<IssueTypeQualifier>
    var state: Option<ItemState>
    var labels: Option<seq<string>>
    var page: int
    var perPage: int

    /** A request with no qualifiers, at the library's default page and page size. */
    constructor ()
      ensures repos == [] && itemType == None && state == None && labels == None
      ensures page == DefaultPage && perPage == RequestsPerPage
    {
      repos := [];
      itemType := None;
      state := None;
      labels := None;
      page := DefaultPage;
      perPage := RequestsPerPage;
    }

    /** What the search endpoint is asked when it is called with this request now. */
    function Query(): SearchQuery
      reads this
    {
      SearchQuery(repos, itemType, state, labels, page, perPage)
    }

    /** Restricts the search to one more repository. */
    method AddRepository(owner: string, name: string)
      modifies this
      ensures repos == old(repos) + [(owner, name)]
      ensures itemType == old(itemType) && state == old(state) && labels == old(labels)
      ensures page == old(page) && perPage == old(perPage)
    {
      repos := repos + [(owner, name)];
    }
  }

  /** The query that `CreateSearchRequest` produces, as a value. */
  function SearchQueryFor(owner: string, repo: string, labelName: Option<string>): SearchQuery
  {
    SearchQuery([(owner, repo)], Some(Issue), Some(Open),
                if labelName.Some? then Some([labelName.value]) else None,
                DefaultPage, RequestsPerPage)
  }

  /** The same query asked for page `page`. */
  function PageQuery(owner: string, repo: string, labelName: Option<string>, page: int): SearchQuery
  {
    SearchQueryFor(owner, repo, labelName).(page := page)
  }

  /**
   * Builds the search request for the open issues of one repository, filtered by
   * the one label when a label is given, unfiltered otherwise.
   */
  method CreateSearchRequest(owner: string, repo: string, labelName: Option<string>)
    returns (request: SearchIssuesRequest)
    ensures fresh(request)
    ensures request.repos == [(owner, repo)]
    ensures request.itemType == Some(Issue) && request.state == Some(Open)
    ensures labelName.None? ==> request.labels.None?
    ensures labelName.Some? ==> request.labels == Some([labelName.value])
    ensures request.perPage == RequestsPerPage && request.page == DefaultPage
    ensures request.Query() == SearchQueryFor(owner, repo, labelName)
  {
    request := new SearchIssuesRequest();
    request.AddRepository(owner, repo);
    request.itemType := Some(Issue);
    request.state := Some(Open);
    if labelName.Some? {
      request.labels := Some([labelName.value]);
    }
    request.perPage := RequestsPerPage;
  }

  /** The loop's condition: the page just fetched was full and the cap has not been reached. */
  predicate ContinuePaging(items: seq<RemoteIssue>, page: int)
  {
    |items| == RequestsPerPage && page < MaxPage
  }

  /** What a run of the paging loop did: the page number of every call, and the pages or the first failure. */
  datatype Fetch = Fetch(requested: seq<int>, outcome: Result<seq<seq<RemoteIssue>>, string>)

  /** `pages` put in front of the pages of a fetch that is still to come. */
  function PrependPages(pages: seq<seq<RemoteIssue>>, rest: Result<seq<seq<RemoteIssue>>, string>): Result<seq<seq<RemoteIssue>>, string>
  {
    match rest
    case Failure(e) => Failure(e)
    case Success(ps) => Success(pages + ps)
  }

  /** The calls `requested` that returned the pages `got` come before the fetch `rest`. */
  function Resume(requested: seq<int>, got: seq<seq<RemoteIssue>>, rest: Fetch): Fetch
  {
    Fetch(requested + rest.requested, PrependPages(got, rest.outcome))
  }

  /**
   * The paging loop started at `q`: it asks for `q.page`, and asks for the next page
   * only while the page it got was full and below the cap. A failed call aborts it.
   */
  function Paginate(search: Searcher, q: SearchQuery): (f: Fetch)
    ensures |f.requested| >= 1 && f.requested[0] == q.page
    ensures f.outcome.Success? ==> |f.outcome.value| == |f.requested|
    decreases MaxPage - q.page
  {
    match search(q)
    case Failure(e) => Fetch([q.page], Failure(e))
    case Success(items) =>
      if ContinuePaging(items, q.page) then Resume([q.page], [items], Paginate(search, q.(page := q.page + 1)))
      else Fetch([q.page], Success([items]))
  }

  /**
   * One more round of the loop: if the run from `q` is the calls `before` with pages
   * `got` followed by the run from `page`, and `page` is full and below the cap, the
   * run from `q` is also those calls and `page`, followed by the run from `page + 1`.
   */
  lemma PaginateStep(search: Searcher, q: SearchQuery, before: seq<int>, got: seq<seq<RemoteIssue>>, page: int, items: seq<RemoteIssue>)
    requires Paginate(search, q) == Resume(before, got, Paginate(search, q.(page := page)))
    requires search(q.(page := page)) == Success(items) && ContinuePaging(items, page)
    ensures Paginate(search, q) == Resume(before + [page], got + [items], Paginate(search, q.(page := page + 1)))
  {
    assert q.(page := page).(page := page + 1) == q.(page := page + 1);
    var rest := Paginate(search, q.(page := page + 1));
    assert before + ([page] + rest.requested) == (before + [page]) + rest.requested;
    if rest.outcome.Success? {
      assert got + ([items] + rest.outcome.value) == (got + [items]) + rest.outcome.value;
    }
  }

  /** The loop's exit at a failed call: the run ends there and fails. */
  lemma PaginateStopsOnFailure(search: Searcher, q: SearchQuery, before: seq<int>, got: seq<seq<RemoteIssue>>, page: int, e: string)
    requires Paginate(search, q) == Resume(before, got, Paginate(search, q.(page := page)))
    requires search(q.(page := page)) == Failure(e)
    ensures Paginate(search, q) == Fetch(before + [page], Failure(e))
  {
  }

  /** The loop's exit at its condition: the run ends at `page` and succeeds. */
  lemma PaginateStopsAtLastPage(search: Searcher, q: SearchQuery, before: seq<int>, got: seq<seq<RemoteIssue>>, page: int, items: seq<RemoteIssue>)
    requires Paginate(search, q) == Resume(before, got, Paginate(search, q.(page := page)))
    requires search(q.(page := page)) == Success(items) && !ContinuePaging(items, page)
    ensures Paginate(search, q) == Fetch(before + [page], Success(got + [items]))
  {
  }

  lemma ResumeNothing(rest: Fetch)
    ensures Resume([], [], rest) == rest
  {
    assert [] + rest.requested == rest.requested;
    if rest.outcome.Success? {
      assert [] + rest.outcome.value == rest.outcome.value;
    }
  }

  /** The number of hits on all pages together. */
  function TotalItems(pages: seq<seq<RemoteIssue>>): nat
  {
    if pages == [] then 0 else |pages[0]| + TotalItems(pages[1..])
  }

  /** All pages' hits, page after page, each page in its own order. */
  function Concat(pages: seq<seq<RemoteIssue>>): (r: seq<RemoteIssue>)
    ensures |r| == TotalItems(pages)
  {
    if pages == [] then [] else pages[0] + Concat(pages[1..])
  }

  /** The exported record of one hit. */
  function CloseDataOf(owner: string, repo: string, issue: RemoteIssue): IssueCloseData
  {
    IssueCloseData(owner, repo, issue.number, issue.title, issue.htmlUrl)
  }

  /** Every hit projected to its record, in the same order. */
  function ToCloseData(owner: string, repo: string, items: seq<RemoteIssue>): (r: seq<IssueCloseData>)
    ensures |r| == |items|
    ensures forall i :: 0 <= i < |items| ==>
      r[i].owner == owner && r[i].repo == repo &&
      r[i].number == items[i].number && r[i].title == items[i].title && r[i].url == items[i].htmlUrl
  {
    if items == [] then [] else [CloseDataOf(owner, repo, items[0])] + ToCloseData(owner, repo, items[1..])
  }

  /** The projection of all fetched pages. */
  function Project(owner: string, repo: string, pages: seq<seq<RemoteIssue>>): seq<IssueCloseData>
  {
    ToCloseData(owner, repo, Concat(pages))
  }

  /** The paging loop of `GetIssuesByLabel` as it starts, on the request `CreateSearchRequest` builds. */
  function IssueSearch(search: Searcher, owner: string, repo: string, labelName: Option<string>): Fetch
  {
    Paginate(search, SearchQueryFor(owner, repo, labelName))
  }

  /** What `GetIssuesByLabel` returns: the projected hits, or the message of the search failure it propagates. */
  function SearchResults(search: Searcher, owner: string, repo: string, labelName: Option<string>): Result<seq<IssueCloseData>, string>
  {
    match IssueSearch(search, owner, repo, labelName).outcome
    case Failure(e) => Failure(e)
    case Success(pages) => Success(Project(owner, repo, pages))
  }

  /**
   * Fetches every page of open issues of `owner/repo` (with `labelName`, when given)
   * and projects the hits. The ghost `requested` records the page number of every
   * call made to the search endpoint, in order.
   */
  method GetIssuesByLabel(search: Searcher, owner: string, repo: string, labelName: Option<string>)
    returns (r: Result<seq<IssueCloseData>, string>, ghost requested: seq<int>)
    ensures r == SearchResults(search, owner, repo, labelName)
    ensures requested == IssueSearch(search, owner, repo, labelName).requested
  {
    var request := CreateSearchRequest(owner, repo, labelName);
    ghost var q := request.Query();
    assert q.(page := request.page) == q;
    ResumeNothing(Paginate(search, q));
    ghost var before: seq<int> := [];
    ghost var got: seq<seq<RemoteIssue>> := [];
    requested := [request.page];
    var response := search(request.Query());
    if response.Failure? {
      PaginateStopsOnFailure(search, q, before, got, request.page, response.error);
      r := Failure(response.error);
      return;
    }
    var result := response.value;
    var results := [result];
    while ContinuePaging(result, request.page)
      invariant request.Query() == q.(page := request.page)
      invariant request.page <= MaxPage
      invariant search(q.(page := request.page)) == Success(result)
      invariant requested == before + [request.page] && results == got + [result]
      invariant Paginate(search, q) == Resume(before, got, Paginate(search, q.(page := request.page)))
      decreases MaxPage - request.page
    {
      PaginateStep(search, q, before, got, request.page, result);
      before, got := before + [request.page], got + [result];
      request.page := request.page + 1;
      requested := requested + [request.page];
      response := search(request.Query());
      if response.Failure? {
        PaginateStopsOnFailure(search, q, before, got, request.page, response.error);
        r := Failure(response.error);
        return;
      }
      result := response.value;
      results := results + [result];
    }
    PaginateStopsAtLastPage(search, q, before, got, request.page, result);
    r := Success(Project(owner, repo, results));
  }

  /** Page numbers are asked for one after another, from the request's own page on. */
  lemma {:induction false} PaginateAsksConsecutivePages(search: Searcher, q: SearchQuery, i: int)
    requires 0 <= i < |Paginate(search, q).requested|
    ensures Paginate(search, q).requested[i] == q.page + i
    decreases i
  {
    if i > 0 {
      PaginateAsksConsecutivePages(search, q.(page := q.page + 1), i - 1);
    }
  }

  /** From a page below the cap the loop makes at most `MaxPage - page + 1` calls; from the cap on, one. */
  lemma {:induction false} PaginateRespectsCap(search: Searcher, q: SearchQuery)
    ensures |Paginate(search, q).requested| <= if q.page < MaxPage then MaxPage - q.page + 1 else 1
    decreases MaxPage - q.page
  {
    match search(q)
    case Failure(_) =>
    case Success(items) =>
      if ContinuePaging(items, q.page) {
        PaginateRespectsCap(search, q.(page := q.page + 1));
      }
  }

  /** A further call is made only after a full page below the cap: every call but the last got one. */
  lemma {:induction false} PaginateEarlierPagesFull(search: Searcher, q: SearchQuery, i: int)
    requires 0 <= i < |Paginate(search, q).requested| - 1
    ensures search(q.(page := q.page + i)).Success?
    ensures ContinuePaging(search(q.(page := q.page + i)).value, q.page + i)
    decreases i
  {
    if i > 0 {
      var next := q.(page := q.page + 1);
      PaginateEarlierPagesFull(search, next, i - 1);
      assert next.(page := next.page + (i - 1)) == q.(page := q.page + i);
    }
  }

  /**
   * The run ends at its last call: either that call failed and the run fails with
   * its message, or it returned a page that is short or at the cap.
   */
  lemma {:induction false} PaginateEndsAtLastCall(search: Searcher, q: SearchQuery)
    ensures var f := Paginate(search, q);
      var lastPage := q.page + |f.requested| - 1;
      var last := search(q.(page := lastPage));
      (f.outcome.Failure? <==> last.Failure?) &&
      (f.outcome.Failure? ==> f.outcome.error == last.error) &&
      (f.outcome.Success? ==> !ContinuePaging(last.value, lastPage))
    decreases MaxPage - q.page
  {
    match search(q)
    case Failure(_) =>
      assert q.(page := q.page) == q;
    case Success(items) =>
      if ContinuePaging(items, q.page) {
        var next := q.(page := q.page + 1);
        PaginateEndsAtLastCall(search, next);
        var n := |Paginate(search, next).requested|;
        assert next.(page := next.page + n - 1) == q.(page := q.page + (1 + n) - 1);
      } else {
        assert q.(page := q.page) == q;
      }
  }

  /** The pages of a successful run are the answers to its calls, in call order. */
  lemma {:induction false} PaginatePagesAreAnswers(search: Searcher, q: SearchQuery, i: int)
    requires Paginate(search, q).outcome.Success?
    requires 0 <= i < |Paginate(search, q).outcome.value|
    ensures search(q.(page := q.page + i)) == Success(Paginate(search, q).outcome.value[i])
    decreases i
  {
    if i == 0 {
      assert q.(page := q.page + 0) == q;
    } else {
      var next := q.(page := q.page + 1);
      PaginatePagesAreAnswers(search, next, i - 1);
      assert next.(page := next.page + (i - 1)) == q.(page := q.page + i);
    }
  }

  /**
   * The search asked of `GetIssuesByLabel` makes between one and `MaxPage` calls,
   * for pages 1, 2, 3, ... in that order, and every call but the last got a full page.
   */
  lemma IssueSearchPages(search: Searcher, owner: string, repo: string, labelName: Option<string>)
    ensures var req := IssueSearch(search, owner, repo, labelName).requested;
      1 <= |req| <= MaxPage &&
      (forall i :: 0 <= i < |req| ==> req[i] == DefaultPage + i) &&
      (forall i :: 0 <= i < |req| - 1 ==>
        search(PageQuery(owner, repo, labelName, req[i])).Success? &&
        |search(PageQuery(owner, repo, labelName, req[i])).value| == RequestsPerPage)
  {
    var q := SearchQueryFor(owner, repo, labelName);
    var req := Paginate(search, q).requested;
    PaginateRespectsCap(search, q);
    forall i | 0 <= i < |req|
      ensures req[i] == DefaultPage + i
    {
      PaginateAsksConsecutivePages(search, q, i);
    }
    forall i | 0 <= i < |req| - 1
      ensures search(PageQuery(owner, repo, labelName, req[i])).Success?
      ensures |search(PageQuery(owner, repo, labelName, req[i])).value| == RequestsPerPage
    {
      PaginateAsksConsecutivePages(search, q, i);
      PaginateEarlierPagesFull(search, q, i);
    }
  }

  /** The remote keeps its side of the contract: no page holds more hits than the request's page size. */
  ghost predicate RespectsPageSize(search: Searcher)
  {
    forall q :: search(q).Success? ==> |search(q).value| <= q.perPage
  }

  lemma {:induction false} TotalItemsBound(pages: seq<seq<RemoteIssue>>)
    requires forall i :: 0 <= i < |pages| ==> |pages[i]| <= RequestsPerPage
    ensures TotalItems(pages) <= RequestsPerPage * |pages|
  {
    if pages != [] {
      TotalItemsBound(pages[1..]);
    }
  }

  /**
   * With a remote that never over-fills a page, `GetIssuesByLabel` returns at most
   * `MaxPage * RequestsPerPage` (1000) records: later hits are cut off silently.
   */
  lemma AtMostThousandIssues(search: Searcher, owner: string, repo: string, labelName: Option<string>)
    requires RespectsPageSize(search)
    ensures var r := SearchResults(search, owner, repo, labelName);
      r.Success? ==> |r.value| <= MaxPage * RequestsPerPage
  {
    var q := SearchQueryFor(owner, repo, labelName);
    var f := Paginate(search, q);
    if f.outcome.Success? {
      var pages := f.outcome.value;
      PaginateRespectsCap(search, q);
      forall i | 0 <= i < |pages|
        ensures |pages[i]| <= RequestsPerPage
      {
        PaginatePagesAreAnswers(search, q, i);
        assert q.(page := q.page + i).perPage == RequestsPerPage;
      }
      TotalItemsBound(pages);
    }
  }

  /** Hit `j` of page `i` sits, unchanged, right after the hits of the pages before page `i`. */
  lemma {:induction false} ConcatKeepsOrder(pages: seq<seq<RemoteIssue>>, i: int, j: int)
    requires 0 <= i < |pages| && 0 <= j < |pages[i]|
    ensures TotalItems(pages[..i]) + j < |Concat(pages)|
    ensures Concat(pages)[TotalItems(pages[..i]) + j] == pages[i][j]
    decreases i
  {
    if i == 0 {
      assert pages[..0] == [];
    } else {
      ConcatKeepsOrder(pages[1..], i - 1, j);
      assert pages[..i][1..] == pages[1..][..i - 1];
    }
  }

  /**
   * The records `GetIssuesByLabel` returns are the hits of the pages in fetch order,
   * nothing dropped, merged or reordered: hit `j` of page `i` (the answer to the call
   * for page `1 + i`) becomes the record at position `TotalItems(pages[..i]) + j`,
   * with the given owner and repo and the hit's own number, title and URL.
   */
  lemma SearchResultsFollowFetchOrder(search: Searcher, owner: string, repo: string, labelName: Option<string>, i: int, j: int)
    requires IssueSearch(search, owner, repo, labelName).outcome.Success?
    requires var pages := IssueSearch(search, owner, repo, labelName).outcome.value;
      0 <= i < |pages| && 0 <= j < |pages[i]|
    ensures var pages := IssueSearch(search, owner, repo, labelName).outcome.value;
      var records := SearchResults(search, owner, repo, labelName).value;
      search(PageQuery(owner, repo, labelName, DefaultPage + i)) == Success(pages[i]) &&
      |records| == TotalItems(pages) &&
      TotalItems(pages[..i]) + j < |records| &&
      records[TotalItems(pages[..i]) + j] == IssueCloseData(owner, repo, pages[i][j].number, pages[i][j].title, pages[i][j].htmlUrl)
  {
    var q := SearchQueryFor(owner, repo, labelName);
    PaginatePagesAreAnswers(search, q, i);
    ConcatKeepsOrder(IssueSearch(search, owner, repo, labelName).outcome.value, i, j);
  }

  /**
   * Closes one issue. The update's exception is caught: the answer is whether the
   * update went through, and no failure escapes.
   */
  function TryCloseIssue(update: Updater, issue: IssueCloseData): (closed: bool)
    ensures closed <==> update(issue.owner, issue.repo, issue.number, IssueUpdate(Closed)).Success?
  {
    match update(issue.owner, issue.repo, issue.number, IssueUpdate(Closed))
    case Success(_) => true
    case Failure(_) => false
  }
}
