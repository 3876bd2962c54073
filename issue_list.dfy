/**
 * The issue list of one repository: the three-state filter that decides which
 * issue query is live, the prefetch decision for the next filter state, the
 * choice of what the list renders, and the fold of a "load more" page into the
 * accumulated query result.
 */
module IssueList {
  import opened Wrappers

  // ---------------------------------------------------------------------------
  // Filter state machine
  // ---------------------------------------------------------------------------

  /** The issue filter; NONE means that no issue list is shown. */
  datatype IssueState = NONE | OPEN | CLOSED

  /** The state a freshly mounted issue list starts in. */
  const INITIAL_STATE: IssueState := NONE

  /** The fixed cycle NONE -> OPEN -> CLOSED -> NONE followed by the filter button. */
  function Transition(s: IssueState): (r: IssueState)
    ensures r != s
    ensures r == NONE <==> s == CLOSED
  {
    match s
    case NONE => OPEN
    case OPEN => CLOSED
    case CLOSED => NONE
  }

  /** Whether an issue list (and so an issue query) is live in state `s`. */
  function IsShow(s: IssueState): (r: bool)
    ensures r <==> s in {OPEN, CLOSED}
  {
    s != NONE
  }

  /** The transition applied `n` times. */
  function Iterate(s: IssueState, n: nat): IssueState
  {
    if n == 0 then s else Transition(Iterate(s, n - 1))
  }

  /** Three transitions bring every state back to itself. */
  lemma TransitionCycle(s: IssueState)
    ensures Transition(Transition(Transition(s))) == s
    ensures Transition(Transition(s)) != s
  {
  }

  /** Every state has exactly one predecessor: the transition is a bijection. */
  lemma TransitionBijective(s: IssueState)
    ensures exists p :: Transition(p) == s
    ensures forall p, q :: Transition(p) == s && Transition(q) == s ==> p == q
  {
    assert Transition(Transition(Transition(s))) == s;
  }

  /** Only the number of transitions modulo three matters. */
  lemma {:induction false} IterateModThree(s: IssueState, n: nat)
    ensures Iterate(s, n) == Iterate(s, n % 3)
  {
    if n >= 3 {
      IterateModThree(s, n - 3);
      var back := Iterate(s, n - 3);
      assert Iterate(s, n - 2) == Transition(back);
      assert Iterate(s, n - 1) == Transition(Transition(back));
      assert Iterate(s, n) == Transition(Transition(Transition(back)));
      TransitionCycle(back);
      assert (n - 3) % 3 == n % 3;
    }
  }

  /** The props of the `Issues` component that the filter logic depends on. */
  datatype Issues = Issues(repositoryOwner: string, repositoryName: string, issueState: IssueState)

  /** A freshly mounted issue list of the given repository. */
  function Mount(repositoryOwner: string, repositoryName: string): (c: Issues)
    ensures c.issueState == NONE && !IsShow(c.issueState)
    ensures c.repositoryOwner == repositoryOwner && c.repositoryName == repositoryName
  {
    Issues(repositoryOwner, repositoryName, INITIAL_STATE)
  }

  /** A click on the filter button replaces the state by its transition and nothing else. */
  function ClickFilter(c: Issues): (c': Issues)
    ensures c'.issueState == Transition(c.issueState)
    ensures c'.repositoryOwner == c.repositoryOwner && c'.repositoryName == c.repositoryName
  {
    c.(issueState := Transition(c.issueState))
  }

  /** `n` clicks on the filter button. */
  function Clicks(c: Issues, n: nat): Issues
  {
    if n == 0 then c else ClickFilter(Clicks(c, n - 1))
  }

  /** After `n` clicks the state is the `n`-fold transition. */
  lemma {:induction false} ClicksIterate(c: Issues, n: nat)
    ensures Clicks(c, n).issueState == Iterate(c.issueState, n)
    ensures Clicks(c, n).repositoryOwner == c.repositoryOwner
    ensures Clicks(c, n).repositoryName == c.repositoryName
  {
    if n > 0 {
      ClicksIterate(c, n - 1);
    }
  }

  /**
   * From a freshly mounted list, a list is shown after `n` clicks exactly when
   * `n` is not a multiple of three; it shows the OPEN issues after 1, 4, 7, ...
   * clicks and the CLOSED ones after 2, 5, 8, ...
   */
  lemma ClicksFromMount(owner: string, name: string, n: nat)
    ensures IsShow(Clicks(Mount(owner, name), n).issueState) <==> n % 3 != 0
    ensures n % 3 == 1 ==> Clicks(Mount(owner, name), n).issueState == OPEN
    ensures n % 3 == 2 ==> Clicks(Mount(owner, name), n).issueState == CLOSED
  {
    ClicksIterate(Mount(owner, name), n);
    IterateModThree(NONE, n);
  }

  // ---------------------------------------------------------------------------
  // Queries issued by the list and by the prefetch
  // ---------------------------------------------------------------------------

  /** The variables of the issues query; `cursor` is absent on a first page. */
  datatype IssuesQuery = IssuesQuery(
    repositoryOwner: string,
    repositoryName: string,
    issueState: IssueState,
    cursor: Option<string>)

  /** The first-page query the `Issues` component makes live, if any. */
  function ActiveQuery(c: Issues): (q: Option<IssuesQuery>)
    ensures q.Some? <==> c.issueState != NONE
    ensures q.Some? ==> q.value == IssuesQuery(c.repositoryOwner, c.repositoryName, c.issueState, None)
  {
    if IsShow(c.issueState) then
      Some(IssuesQuery(c.repositoryOwner, c.repositoryName, c.issueState, None))
    else
      None
  }

  /**
   * The query the prefetch issues to warm the cache, if any: the first page of
   * the next filter state, and nothing when the next state is NONE.
   */
  function PrefetchIssues(repositoryOwner: string, repositoryName: string, issueState: IssueState)
    : (q: Option<IssuesQuery>)
    ensures q.Some? <==> issueState != CLOSED
    ensures q.Some? ==> q.value.issueState == Transition(issueState) && q.value.issueState != NONE
    ensures q.Some? ==> q.value.cursor.None?
    ensures q.Some? ==> q.value.repositoryOwner == repositoryOwner && q.value.repositoryName == repositoryName
  {
    var nextIssueState := Transition(issueState);
    if IsShow(nextIssueState) then
      Some(IssuesQuery(repositoryOwner, repositoryName, nextIssueState, None))
    else
      None
  }

  /** The prefetch warms exactly the query that a click on the filter makes live. */
  lemma PrefetchMatchesClick(c: Issues)
    ensures PrefetchIssues(c.repositoryOwner, c.repositoryName, c.issueState) == ActiveQuery(ClickFilter(c))
  {
  }

  /** From OPEN the CLOSED list is prefetched; from CLOSED nothing is fetched. */
  lemma PrefetchCases(owner: string, name: string)
    ensures PrefetchIssues(owner, name, NONE) == Some(IssuesQuery(owner, name, OPEN, None))
    ensures PrefetchIssues(owner, name, OPEN) == Some(IssuesQuery(owner, name, CLOSED, None))
    ensures PrefetchIssues(owner, name, CLOSED) == None
  {
  }

  // ---------------------------------------------------------------------------
  // Query result and the "load more" fold
  // ---------------------------------------------------------------------------

  /** One issue node as selected by the issues query. */
  datatype Issue = Issue(id: string, number: int, state: string, title: string, url: string, bodyHTML: string)

  /** One position of the paginated list. */
  datatype Edge = Edge(node: Issue)

  /** The frontier of the list: where the next page starts and whether there is one. */
  datatype PageInfo = PageInfo(endCursor: Option<string>, hasNextPage: bool)

  /**
   * `repository.issues`; `otherFields` stands for every further field the object
   * may carry besides `edges` and `pageInfo`.
   */
  datatype IssueConnection = IssueConnection(edges: seq<Edge>, pageInfo: PageInfo, otherFields: map<string, string>)

  /** `repository`; `otherFields` stands for its fields besides `issues`. */
  datatype Repository = Repository(issues: IssueConnection, otherFields: map<string, string>)

  /** The `data` of the issues query; `repository` is absent until the first page arrives. */
  datatype QueryData = QueryData(repository: Option<Repository>, otherFields: map<string, string>)

  /** A result that holds a repository. */
  predicate HasRepository(d: QueryData)
  {
    d.repository.Some?
  }

  /** The accumulated edges of a result that holds a repository. */
  function EdgesOf(d: QueryData): seq<Edge>
    requires HasRepository(d)
  {
    d.repository.value.issues.edges
  }

  /** The frontier of a result that holds a repository. */
  function PageInfoOf(d: QueryData): PageInfo
    requires HasRepository(d)
  {
    d.repository.value.issues.pageInfo
  }

  /**
   * `updateQuery`: fold a "load more" result into the previous result. An absent
   * page leaves the previous result as it is. Otherwise the new edges follow the
   * old ones, the frontier comes from the new page, and every field outside
   * `issues` comes from the previous result; the further fields of `issues` are
   * those of both, the new page winning on a clash (object spread).
   */
  function UpdateQuery(previousResult: QueryData, fetchMoreResult: Option<QueryData>): (r: QueryData)
    requires fetchMoreResult.Some? ==> HasRepository(previousResult) && HasRepository(fetchMoreResult.value)
    ensures fetchMoreResult.None? ==> r == previousResult
    ensures fetchMoreResult.Some? ==>
      var prev := previousResult.repository.value;
      var page := fetchMoreResult.value.repository.value;
      && HasRepository(r)
      && |EdgesOf(r)| == |prev.issues.edges| + |page.issues.edges|
      && (forall i :: 0 <= i < |prev.issues.edges| ==> EdgesOf(r)[i] == prev.issues.edges[i])
      && (forall j :: 0 <= j < |page.issues.edges| ==> EdgesOf(r)[|prev.issues.edges| + j] == page.issues.edges[j])
      && PageInfoOf(r) == page.issues.pageInfo
      && r.otherFields == previousResult.otherFields
      && r.repository.value.otherFields == prev.otherFields
      && r.repository.value.issues.otherFields.Keys == prev.issues.otherFields.Keys + page.issues.otherFields.Keys
      && (forall k :: k in page.issues.otherFields ==>
            r.repository.value.issues.otherFields[k] == page.issues.otherFields[k])
      && (forall k :: k in prev.issues.otherFields && k !in page.issues.otherFields ==>
            r.repository.value.issues.otherFields[k] == prev.issues.otherFields[k])
  {
    match fetchMoreResult
    case None => previousResult
    case Some(more) =>
      var prev := previousResult.repository.value;
      var page := more.repository.value;
      previousResult.(repository := Some(prev.(issues := IssueConnection(
        prev.issues.edges + page.issues.edges,
        page.issues.pageInfo,
        prev.issues.otherFields + page.issues.otherFields))))
  }

  /** An absent page is a no-op, so folding it in twice is the same as once. */
  lemma UpdateQueryAbsentIdempotent(d: QueryData)
    ensures UpdateQuery(UpdateQuery(d, None), None) == UpdateQuery(d, None) == d
  {
  }

  /** Pages fit to be folded in: every page that arrived holds a repository. */
  predicate WellFormedPages(pages: seq<Option<QueryData>>)
  {
    forall i :: 0 <= i < |pages| && pages[i].Some? ==> HasRepository(pages[i].value)
  }

  /** Successive "load more" results folded into `d` in arrival order. */
  function LoadPages(d: QueryData, pages: seq<Option<QueryData>>): (r: QueryData)
    requires HasRepository(d) && WellFormedPages(pages)
    ensures HasRepository(r)
    decreases |pages|
  {
    if pages == [] then d
    else LoadPages(UpdateQuery(d, pages[0]), pages[1..])
  }

  /** The edges of the pages that arrived, in arrival order. */
  function ArrivedEdges(pages: seq<Option<QueryData>>): seq<Edge>
    requires WellFormedPages(pages)
    decreases |pages|
  {
    if pages == [] then []
    else (if pages[0].Some? then EdgesOf(pages[0].value) else []) + ArrivedEdges(pages[1..])
  }

  /** The total number of edges of the pages that arrived. */
  function ArrivedCount(pages: seq<Option<QueryData>>): nat
    requires WellFormedPages(pages)
    decreases |pages|
  {
    if pages == [] then 0
    else (if pages[0].Some? then |EdgesOf(pages[0].value)| else 0) + ArrivedCount(pages[1..])
  }

  /** The frontier after the pages: that of the last page that arrived, else `info`. */
  function LastFrontier(info: PageInfo, pages: seq<Option<QueryData>>): PageInfo
    requires WellFormedPages(pages)
    decreases |pages|
  {
    if pages == [] then info
    else LastFrontier(if pages[0].Some? then PageInfoOf(pages[0].value) else info, pages[1..])
  }

  /**
   * Pagination is append-only: after any sequence of "load more" results the
   * edges are the original ones followed by every arrived page's edges in
   * arrival order, nothing deduplicated or reordered; the frontier is the last
   * arrived page's; the fields outside `issues` are untouched.
   */
  lemma {:induction false} LoadPagesAppendOnly(d: QueryData, pages: seq<Option<QueryData>>)
    requires HasRepository(d) && WellFormedPages(pages)
    ensures EdgesOf(LoadPages(d, pages)) == EdgesOf(d) + ArrivedEdges(pages)
    ensures PageInfoOf(LoadPages(d, pages)) == LastFrontier(PageInfoOf(d), pages)
    ensures LoadPages(d, pages).otherFields == d.otherFields
    ensures LoadPages(d, pages).repository.value.otherFields == d.repository.value.otherFields
    decreases |pages|
  {
    if pages != [] {
      var d' := UpdateQuery(d, pages[0]);
      assert WellFormedPages(pages[1..]);
      LoadPagesAppendOnly(d', pages[1..]);
      if pages[0].Some? {
        assert EdgesOf(d') == EdgesOf(d) + EdgesOf(pages[0].value);
      }
      assert EdgesOf(d) + ArrivedEdges(pages)
          == EdgesOf(d) + ((if pages[0].Some? then EdgesOf(pages[0].value) else []) + ArrivedEdges(pages[1..]));
    }
  }

  /** The arrived edges number exactly the sum of the arrived page sizes. */
  lemma {:induction false} ArrivedEdgesCount(pages: seq<Option<QueryData>>)
    requires WellFormedPages(pages)
    ensures |ArrivedEdges(pages)| == ArrivedCount(pages)
    decreases |pages|
  {
    if pages != [] {
      assert WellFormedPages(pages[1..]);
      ArrivedEdgesCount(pages[1..]);
    }
  }

  /** Length additivity: the list grows by exactly the sizes of the arrived pages. */
  lemma LoadPagesLength(d: QueryData, pages: seq<Option<QueryData>>)
    requires HasRepository(d) && WellFormedPages(pages)
    ensures |EdgesOf(LoadPages(d, pages))| == |EdgesOf(d)| + ArrivedCount(pages)
  {
    LoadPagesAppendOnly(d, pages);
    ArrivedEdgesCount(pages);
  }

  // ---------------------------------------------------------------------------
  // What the list renders
  // ---------------------------------------------------------------------------

  /** The props handed to the "load more" control. */
  datatype FetchMore = FetchMore(loading: bool, hasNextPage: bool, cursor: Option<string>)

  /** The branch the query's render function takes. */
  datatype View =
    | ErrorMessage(error: string)
    | Loading
    | NoIssues
    | IssueListView(edges: seq<Edge>, fetchMore: FetchMore)

  /**
   * The render branch for one state of the issues query: an error wins, then a
   * load without any repository yet, then an empty list, else the list with a
   * "load more" control that continues at the current end cursor. The source
   * dereferences `repository` when neither of the first two branches applies.
   */
  function RenderIssues(error: Option<string>, loading: bool, data: QueryData): (v: View)
    requires error.Some? || loading || HasRepository(data)
    ensures v.ErrorMessage? <==> error.Some?
    ensures v.ErrorMessage? ==> v.error == error.value
    ensures v.Loading? <==> error.None? && loading && !HasRepository(data)
    ensures v.NoIssues? <==> error.None? && HasRepository(data) && |EdgesOf(data)| == 0
    ensures v.IssueListView? <==> error.None? && HasRepository(data) && |EdgesOf(data)| > 0
    ensures v.IssueListView? ==>
      && v.edges == EdgesOf(data)
      && v.fetchMore == FetchMore(loading, PageInfoOf(data).hasNextPage, PageInfoOf(data).endCursor)
  {
    if error.Some? then ErrorMessage(error.value)
    else if loading && data.repository.None? then Loading
    else if |data.repository.value.issues.edges| == 0 then NoIssues
    else
      var issues := data.repository.value.issues;
      IssueListView(issues.edges, FetchMore(loading, issues.pageInfo.hasNextPage, issues.pageInfo.endCursor))
  }

  /**
   * The request the "load more" control sends: the variables of the live query
   * with the cursor it was handed. The control itself passes only `{cursor}`;
   * keeping the other variables is how the query's `fetchMore` combines them.
   */
  function LoadMoreQuery(q: IssuesQuery, fetchMore: FetchMore): (r: IssuesQuery)
    ensures r.cursor == fetchMore.cursor
    ensures r.repositoryOwner == q.repositoryOwner && r.repositoryName == q.repositoryName
    ensures r.issueState == q.issueState
  {
    q.(cursor := fetchMore.cursor)
  }

  /**
   * The "load more" request of a shown list asks for the live filter state and
   * repository, starting at the end cursor of the edges shown; folding its
   * result in keeps the list shown, with the old edges first, and moves the
   * cursor to the end of the new page.
   */
  lemma LoadMoreContinuesList(c: Issues, loading: bool, data: QueryData, page: QueryData)
    requires ActiveQuery(c).Some?
    requires HasRepository(data)
    requires RenderIssues(None, loading, data).IssueListView?
    requires HasRepository(page)
    ensures
      var more := LoadMoreQuery(ActiveQuery(c).value, RenderIssues(None, loading, data).fetchMore);
      more == IssuesQuery(c.repositoryOwner, c.repositoryName, c.issueState, PageInfoOf(data).endCursor)
    ensures
      var merged := UpdateQuery(data, Some(page));
      && RenderIssues(None, false, merged).IssueListView?
      && RenderIssues(None, false, merged).edges[..|EdgesOf(data)|] == EdgesOf(data)
      && RenderIssues(None, false, merged).fetchMore.cursor == PageInfoOf(page).endCursor
  {
    var merged := UpdateQuery(data, Some(page));
    assert EdgesOf(merged)[..|EdgesOf(data)|] == EdgesOf(data);
  }

  /**
   * Seven open issues in pages of five: a first page of edges 1-5 with
   * end cursor "c5" and more to come, then a page of edges 6-7 with no more,
   * give one list of all seven in order with no next page.
   */
  lemma SevenIssuesInTwoPages(e: seq<Edge>, rest: map<string, string>)
    requires |e| == 7
    ensures
      var first := QueryData(Some(Repository(IssueConnection(e[..5], PageInfo(Some("c5"), true), map[]), rest)), map[]);
      var second := QueryData(Some(Repository(IssueConnection(e[5..], PageInfo(Some("c7"), false), map[]), rest)), map[]);
      var v := RenderIssues(None, false, UpdateQuery(first, Some(second)));
      && RenderIssues(None, false, first).fetchMore.cursor == Some("c5")
      && v.IssueListView? && v.edges == e && !v.fetchMore.hasNextPage
  {
    assert e[..5] + e[5..] == e;
  }
}
