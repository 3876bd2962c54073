# Issue filter, pagination merge and star reconciliation — a Dafny model

This project models the two pieces of logic in the repository browser's client
that have precise behaviour:

- **The issue list** (`src/components/Issue/IssueList/index.js`, module
  `IssueList` in `issue_list.dfy`). It covers the following:
  - the three-state filter NONE → OPEN → CLOSED → NONE, which starts at NONE;
  - `isShow`, which says whether a list and its query are live;
  - the prefetch decision for the next filter state;
  - the render branch the query result selects (error, loading, empty or list);
  - `updateQuery`, which folds a "load more" page into the accumulated result.
  
  All of this is pure and is modelled with datatypes, functions and lemmas. The
  component's single piece of state, `issueState`, is a field of the `Issues`
  value, and a click replaces it wholesale.
- **The star button** (`src/components/Repository/RepositoryItem/index.js`,
  module `RepositoryItem` in `repository_item.dfy`). It covers the following:
  - the two-way choice of the add-star or remove-star mutation on `viewerHasStarred`;
  - the two cache update functions. Each reads the entry `Repository:<id>` of
    the client cache and writes it back with `stargazers.totalCount` moved by +1 or −1.
  
  The client cache is a class `Cache` that owns a `map` from cache key to
  repository fragment. The updates are methods on it with `modifies` clauses,
  specified by the pure deltas `AddStarDelta` and `RemoveStarDelta`.

`wrappers.dfy` holds the `Option` type, which stands for JavaScript's absent values.

Object spreads are modelled field by field. At each level of the query result,
the fields the code does not name explicitly are kept as `otherFields: map<string, string>`.
At the `issues` level, where both the previous and the new object are spread,
those fields are the right-biased union of the two maps, which is what the
spread does.

## Model

| member | source | states |
|---|---|---|
| `IssueList.Transition` | src/components/Issue/IssueList/index.js:26-30 | the transition always changes the state, and it leads to NONE exactly from CLOSED |
| `IssueList.IsShow` | src/components/Issue/IssueList/index.js:81 | a list is shown exactly in OPEN and CLOSED, i.e. false exactly for NONE |
| `IssueList.TransitionCycle` | src/components/Issue/IssueList/index.js:26-30 | three transitions return every state to itself; two never do |
| `IssueList.TransitionBijective` | src/components/Issue/IssueList/index.js:26-30 | the transition map is a bijection on the three states: each has exactly one predecessor |
| `IssueList.IterateModThree` | src/components/Issue/IssueList/index.js:26-30 | n transitions equal n mod 3 transitions |
| `IssueList.Mount` | src/components/Issue/IssueList/index.js:193-195 | a mounted list starts in NONE, so no list is shown initially |
| `IssueList.ClickFilter` | src/components/Issue/IssueList/index.js:179 | a filter click sets the state to its transition and keeps the repository |
| `IssueList.ClicksIterate` | src/components/Issue/IssueList/index.js:179 | n clicks give the n-fold transition of the state and keep the repository |
| `IssueList.ClicksFromMount` | src/components/Issue/IssueList/index.js:179-195 | after n clicks from mount a list is shown iff n mod 3 ≠ 0; it shows OPEN for n mod 3 = 1 and CLOSED for n mod 3 = 2 |
| `IssueList.ActiveQuery` | src/components/Issue/IssueList/index.js:97-104 | a query is live iff the state is not NONE; it is the first page (no cursor) of that state for the component's repository |
| `IssueList.PrefetchIssues` | src/components/Issue/IssueList/index.js:150-168 | a prefetch is issued iff the current state is not CLOSED; its state is the next state, never NONE, with no cursor and the same repository |
| `IssueList.PrefetchMatchesClick` | src/components/Issue/IssueList/index.js:156-179 | the prefetched query is exactly the query that the next filter click makes live |
| `IssueList.PrefetchCases` | src/components/Issue/IssueList/index.js:156-166 | NONE prefetches OPEN, OPEN prefetches CLOSED, CLOSED fetches nothing |
| `IssueList.UpdateQuery` | src/components/Issue/IssueList/index.js:60-79 | an absent page returns the previous result unchanged. Otherwise the previous edges keep their positions and are followed by the new page's edges in order, and the length is the sum. `pageInfo` comes from the new page. Top-level and repository fields come from the previous result. Other `issues` fields are the union, with the new page winning |
| `IssueList.UpdateQueryAbsentIdempotent` | src/components/Issue/IssueList/index.js:60-63 | folding in an absent page is the identity, hence idempotent |
| `IssueList.LoadPagesAppendOnly` | src/components/Issue/IssueList/index.js:60-79 | after any sequence of "load more" results the edges are the original edges followed by every arrived page's edges, in arrival order and without deduplication. The frontier is that of the last arrived page, and fields outside `issues` are untouched |
| `IssueList.LoadPagesLength` | src/components/Issue/IssueList/index.js:72-75 | after any sequence of pages the edge count is the original count plus the sum of the arrived page sizes |
| `IssueList.RenderIssues` | src/components/Issue/IssueList/index.js:107-138 | an error wins. Next, loading with no repository shows the loading view. Next, zero edges show the empty message. Otherwise the list shows exactly the accumulated edges, with a "load more" control at the current `pageInfo.endCursor` and `hasNextPage` |
| `IssueList.LoadMoreQuery` | src/components/Issue/IssueList/index.js:125-133 | the "load more" request carries the cursor handed to the control and keeps the live query's repository and filter state |
| `IssueList.LoadMoreContinuesList` | src/components/Issue/IssueList/index.js:122-135 | a shown list's "load more" request is the live query with the shown `pageInfo.endCursor` as cursor. After its page is folded in, the list is still shown, starts with the old edges, and continues at the new page's end cursor |
| `IssueList.SevenIssuesInTwoPages` | src/components/Issue/IssueList/index.js:60-79 | a first page of 5 edges (cursor "c5", more to come) and then a page of 2 give all 7 edges in order with no next page |
| `RepositoryItem.CacheKey` | src/components/Repository/RepositoryItem/index.js:43-44 | the key is the literal prefix `Repository:` followed by exactly the starrable's id |
| `RepositoryItem.CacheKeyInjective` | src/components/Repository/RepositoryItem/index.js:43-51 | two ids give the same cache key iff they are equal, so an update touches only its own repository |
| `RepositoryItem.AddStarDelta` | src/components/Repository/RepositoryItem/index.js:48-59 | the written fragment has `stargazers.totalCount` one higher and every other field unchanged |
| `RepositoryItem.RemoveStarDelta` | src/components/Repository/RepositoryItem/index.js:78-89 | the written fragment has `stargazers.totalCount` one lower, not clamped at zero, and every other field unchanged |
| `RepositoryItem.StarDeltaRoundTrip` | src/components/Repository/RepositoryItem/index.js:48-78 | adding then removing a star, or the reverse, restores the fragment exactly |
| `RepositoryItem.SelectStarMutation` | src/components/Repository/RepositoryItem/index.js:112-133 | `viewerHasStarred == false` selects STAR_REPO with `updateAddStar`, and `true` selects UN_STAR_REPO with `updateRemoveStar`. Both send the row's own id |
| `RepositoryItem.SelectedUpdateDirection` | src/components/Repository/RepositoryItem/index.js:112-133 | the selected update moves the count by +1 when not starred and by −1 when starred, changing nothing else |
| `RepositoryItem.ToggleTwiceRestoresCount` | src/components/Repository/RepositoryItem/index.js:112-133 | a click followed by a click after the flag has flipped restores the fragment |
| `RepositoryItem.Cache.ReadFragment` | src/components/Repository/RepositoryItem/index.js:43-46 | returns the entry under the key, and nothing for a key that is not cached |
| `RepositoryItem.Cache.WriteFragment` | src/components/Repository/RepositoryItem/index.js:50-60 | replaces the entry under the key and no other entry |
| `RepositoryItem.Cache.UpdateAddStar` | src/components/Repository/RepositoryItem/index.js:33-61 | requires the entry `Repository:<id>` to be cached. Afterwards its count is the old count + 1, its other fields are unchanged, every other key is untouched, keys still match ids, and in a valid cache the updated entry is the repository with the starrable's id |
| `RepositoryItem.Cache.UpdateRemoveStar` | src/components/Repository/RepositoryItem/index.js:63-91 | requires the entry `Repository:<id>` to be cached. Afterwards its count is the old count − 1, its other fields are unchanged, every other key is untouched, keys still match ids, and in a valid cache the updated entry is the repository with the starrable's id |
| `RepositoryItem.Cache.RunUpdate` | src/components/Repository/RepositoryItem/index.js:113-131 | running the update a `Mutation` element carries writes exactly that update's fragment under the starrable's key; in a valid cache it keeps keys matching ids and the entry written is the starrable's own repository |
| `RepositoryItem.StarThenUnstar` | src/components/Repository/RepositoryItem/index.js:33-91 | `updateAddStar` followed by `updateRemoveStar` for the same id leaves the whole cache as it was |
| `RepositoryItem.StarScenario` | src/components/Repository/RepositoryItem/index.js:112-124 | a valid cache holding a repository with 3 stargazers, not starred, selects add-star; a later read of its entry sees 4 |

## Left out

- JSX rendering, CSS class names, button labels (`TRANSITION_LABELS`) and the wiring of the `Query`, `Mutation`, `Fragment` and `ApolloConsumer` components are view code.
- The transport is left out: executing queries and mutations, and network errors. A query issuance is modelled as the returned `IssuesQuery` value, and an error only as the string the render branch receives.
- The prefetch runs during render (`index.js:180`), not on hover. The model gives only the decision of which query the prefetch issues, not when it fires.
- The mutation payload's `starrable.viewerHasStarred` is not modelled: the update functions read only `starrable.id`.
- The cache is modelled as a keyed map of repository fragments. Normalization and merging inside the cache library are left out. In particular, the mutation result's own `starrable { id viewerHasStarred }` also flips the cached `viewerHasStarred` flag; the model assumes this happens before the next click, as `ToggleTwiceRestoresCount` states.
- `REPOSITORY_FRAGMENT` (`../fragments`) is not part of this model. Its fields other than `id`, `viewerHasStarred` and `stargazers` are kept as `otherFields`. A `writeFragment` of the whole fragment is therefore a replacement of the entry.
- RepositoryItem.Cache.UpdateAddStar: a missing cache entry is excluded by a precondition. The code dereferences the read fragment without a check, so it has no error path to model.
- RepositoryItem.Cache.UpdateRemoveStar: same precondition as `UpdateAddStar`, for the same reason.
- IssueList.UpdateQuery: requires both results to hold a repository when a page arrived, because the code dereferences `repository` on both without a check.
- IssueList.RenderIssues: requires a repository whenever there is neither an error nor a load in flight, because the code dereferences it there.
- Edges carry only their `node`: the query selects no per-edge cursor. Pagination uses `pageInfo.endCursor` only.
- IssueList.LoadMoreQuery: the control passes only `{cursor}`; the model assumes the query's `fetchMore` keeps the live query's other variables (repository and filter state), which happens inside the query library and is not part of this model.
- The `FetchMore` component is not part of this model. The model states the cursor it is given and how its result is folded in, not when it triggers.
- `bodyHTML` and `descriptionHTML` are carried as plain strings; HTML injection is view code.
- The comment form, the profile page, the repository list, the input component and the duplicate issues query document hold no logic that this model states.
