/**
 * The star button of one repository row and the cache reconciliation that
 * follows a star or unstar mutation: the client cache entry of the starred
 * repository is read and written back with its stargazer count moved by one.
 */
module RepositoryItem {
  import opened Wrappers

  /** `stargazers` of a repository; `otherFields` stands for its fields besides `totalCount`. */
  datatype Stargazers = Stargazers(totalCount: int, otherFields: map<string, string>)

  /**
   * The repository fragment as cached; `otherFields` stands for the fragment's
   * fields besides `id`, `viewerHasStarred` and `stargazers`.
   */
  datatype RepositoryFragment = RepositoryFragment(
    id: string,
    viewerHasStarred: bool,
    stargazers: Stargazers,
    otherFields: map<string, string>)

  /** The type-name part of the cache key of a repository. */
  const KEY_PREFIX: string := "Repository:"

  /** The cache key of the repository with the given id: the prefix followed by the id. */
  function CacheKey(id: string): (key: string)
    ensures |key| == |KEY_PREFIX| + |id|
    ensures key[..|KEY_PREFIX|] == KEY_PREFIX && key[|KEY_PREFIX|..] == id
  {
    KEY_PREFIX + id
  }

  /** Distinct repositories have distinct cache keys. */
  lemma CacheKeyInjective(a: string, b: string)
    ensures CacheKey(a) == CacheKey(b) <==> a == b
  {
    if CacheKey(a) == CacheKey(b) {
      assert a == CacheKey(a)[|KEY_PREFIX|..] == CacheKey(b)[|KEY_PREFIX|..] == b;
    }
  }

  /** Every field of two fragments agrees except possibly `stargazers.totalCount`. */
  predicate SameExceptCount(a: RepositoryFragment, b: RepositoryFragment)
  {
    && a.id == b.id
    && a.viewerHasStarred == b.viewerHasStarred
    && a.otherFields == b.otherFields
    && a.stargazers.otherFields == b.stargazers.otherFields
  }

  /** The fragment written back by `updateAddStar`: one more stargazer, nothing else changed. */
  function AddStarDelta(r: RepositoryFragment): (r': RepositoryFragment)
    ensures r'.stargazers.totalCount == r.stargazers.totalCount + 1
    ensures SameExceptCount(r, r')
  {
    r.(stargazers := r.stargazers.(totalCount := r.stargazers.totalCount + 1))
  }

  /** The fragment written back by `updateRemoveStar`: one stargazer fewer (not clamped at zero). */
  function RemoveStarDelta(r: RepositoryFragment): (r': RepositoryFragment)
    ensures r'.stargazers.totalCount == r.stargazers.totalCount - 1
    ensures SameExceptCount(r, r')
  {
    r.(stargazers := r.stargazers.(totalCount := r.stargazers.totalCount - 1))
  }

  /** Adding then removing a star, or the reverse, restores the fragment. */
  lemma StarDeltaRoundTrip(r: RepositoryFragment)
    ensures RemoveStarDelta(AddStarDelta(r)) == r
    ensures AddStarDelta(RemoveStarDelta(r)) == r
  {
  }

  /** The `starrable` object of an addStar or removeStar mutation result; the updates read only its id. */
  datatype Starrable = Starrable(id: string)

  /** The two mutation documents. */
  datatype StarDocument = STAR_REPO | UN_STAR_REPO

  /** The two cache update functions. */
  datatype CacheUpdate = UpdateAddStar | UpdateRemoveStar

  /** A `Mutation` element: which document it sends, with which id, and which update follows it. */
  datatype StarMutation = StarMutation(mutation: StarDocument, id: string, update: CacheUpdate)

  /**
   * The star button's choice: a repository the viewer has not starred gets the
   * add-star mutation with the add-star update, a starred one the remove-star
   * mutation with the remove-star update; both send the row's own id.
   */
  function SelectStarMutation(id: string, viewerHasStarred: bool): (m: StarMutation)
    ensures m.id == id
    ensures m.mutation == STAR_REPO <==> !viewerHasStarred
    ensures m.update == UpdateAddStar <==> m.mutation == STAR_REPO
  {
    if !viewerHasStarred then StarMutation(STAR_REPO, id, UpdateAddStar)
    else StarMutation(UN_STAR_REPO, id, UpdateRemoveStar)
  }

  /** The fragment an update writes back. */
  function ApplyUpdate(u: CacheUpdate, r: RepositoryFragment): RepositoryFragment
  {
    match u
    case UpdateAddStar => AddStarDelta(r)
    case UpdateRemoveStar => RemoveStarDelta(r)
  }

  /**
   * The update chosen by the button moves the count towards the flag it sets:
   * up by one when the viewer had not starred, down by one when they had.
   */
  lemma SelectedUpdateDirection(id: string, r: RepositoryFragment)
    ensures ApplyUpdate(SelectStarMutation(id, r.viewerHasStarred).update, r).stargazers.totalCount
         == r.stargazers.totalCount + (if r.viewerHasStarred then -1 else 1)
    ensures SameExceptCount(r, ApplyUpdate(SelectStarMutation(id, r.viewerHasStarred).update, r))
  {
  }

  /**
   * Two clicks, the second one made once the flag has flipped, restore the
   * count: whichever way the first click went, the second undoes it.
   */
  lemma ToggleTwiceRestoresCount(id: string, r: RepositoryFragment)
    ensures
      var once := ApplyUpdate(SelectStarMutation(id, r.viewerHasStarred).update, r);
      var twice := ApplyUpdate(SelectStarMutation(id, !r.viewerHasStarred).update, once);
      twice == r
  {
    StarDeltaRoundTrip(r);
  }

  /** The client cache: repository fragments by cache key. */
  class Cache {
    var entries: map<string, RepositoryFragment>

    /** Every entry sits under the cache key of its own id. */
    ghost predicate Valid()
      reads this
    {
      forall k :: k in entries ==> k == CacheKey(entries[k].id)
    }

    constructor (initial: map<string, RepositoryFragment>)
      requires forall k :: k in initial ==> k == CacheKey(initial[k].id)
      ensures entries == initial
      ensures Valid()
    {
      entries := initial;
    }

    /** `readFragment`: the cached fragment under `key`, absent for a key never written. */
    method ReadFragment(key: string) returns (r: Option<RepositoryFragment>)
      ensures r.Some? <==> key in entries
      ensures r.Some? ==> r.value == entries[key]
    {
      if key in entries {
        r := Some(entries[key]);
      } else {
        r := None;
      }
    }

    /** `writeFragment` of the whole fragment: replaces the entry under `key` and no other. */
    method WriteFragment(key: string, data: RepositoryFragment)
      modifies this
      ensures entries == old(entries)[key := data]
    {
      entries := entries[key := data];
    }

    /**
     * `updateAddStar`: the entry of the starred repository gets one more
     * stargazer; every other field of it and every other entry stay as they were.
     */
    method UpdateAddStar(starrable: Starrable)
      requires CacheKey(starrable.id) in entries
      modifies this
      ensures entries == old(entries)[CacheKey(starrable.id) := AddStarDelta(old(entries)[CacheKey(starrable.id)])]
      ensures entries[CacheKey(starrable.id)].stargazers.totalCount
           == old(entries)[CacheKey(starrable.id)].stargazers.totalCount + 1
      ensures SameExceptCount(old(entries)[CacheKey(starrable.id)], entries[CacheKey(starrable.id)])
      ensures entries.Keys == old(entries).Keys
      ensures forall k :: k in entries && k != CacheKey(starrable.id) ==> entries[k] == old(entries)[k]
      ensures old(Valid()) ==> Valid()
      ensures old(Valid()) ==> entries[CacheKey(starrable.id)].id == starrable.id
    {
      var key := CacheKey(starrable.id);
      if Valid() {
        CacheKeyInjective(entries[key].id, starrable.id);
      }
      var repository := ReadFragment(key);
      WriteFragment(key, AddStarDelta(repository.value));
    }

    /**
     * `updateRemoveStar`: the entry of the unstarred repository gets one
     * stargazer fewer; every other field of it and every other entry stay as they were.
     */
    method UpdateRemoveStar(starrable: Starrable)
      requires CacheKey(starrable.id) in entries
      modifies this
      ensures entries == old(entries)[CacheKey(starrable.id) := RemoveStarDelta(old(entries)[CacheKey(starrable.id)])]
      ensures entries[CacheKey(starrable.id)].stargazers.totalCount
           == old(entries)[CacheKey(starrable.id)].stargazers.totalCount - 1
      ensures SameExceptCount(old(entries)[CacheKey(starrable.id)], entries[CacheKey(starrable.id)])
      ensures entries.Keys == old(entries).Keys
      ensures forall k :: k in entries && k != CacheKey(starrable.id) ==> entries[k] == old(entries)[k]
      ensures old(Valid()) ==> Valid()
      ensures old(Valid()) ==> entries[CacheKey(starrable.id)].id == starrable.id
    {
      var key := CacheKey(starrable.id);
      if Valid() {
        CacheKeyInjective(entries[key].id, starrable.id);
      }
      var repository := ReadFragment(key);
      WriteFragment(key, RemoveStarDelta(repository.value));
    }

    /** The update a `Mutation` element runs once its mutation has completed. */
    method RunUpdate(update: CacheUpdate, starrable: Starrable)
      requires CacheKey(starrable.id) in entries
      modifies this
      ensures entries == old(entries)[CacheKey(starrable.id) := ApplyUpdate(update, old(entries)[CacheKey(starrable.id)])]
      ensures old(Valid()) ==> Valid()
      ensures old(Valid()) ==> entries[CacheKey(starrable.id)].id == starrable.id
    {
      match update
      case UpdateAddStar => UpdateAddStar(starrable);
      case UpdateRemoveStar => UpdateRemoveStar(starrable);
    }
  }

  /** A star followed by an unstar of the same repository leaves the cache as it was. */
  method StarThenUnstar(cache: Cache, id: string)
    requires CacheKey(id) in cache.entries
    modifies cache
    ensures cache.entries == old(cache.entries)
  {
    cache.UpdateAddStar(Starrable(id));
    cache.UpdateRemoveStar(Starrable(id));
    StarDeltaRoundTrip(old(cache.entries)[CacheKey(id)]);
  }

  /**
   * A repository cached with three stargazers and not starred by the viewer:
   * the button selects the add-star mutation, and after its update a later
   * read of the same entry, from any list, sees four stargazers.
   */
  method StarScenario(id: string, rest: map<string, string>) returns (seen: int)
    ensures seen == 4
  {
    var entry := RepositoryFragment(id, false, Stargazers(3, map[]), rest);
    var cache := new Cache(map[CacheKey(id) := entry]);
    assert cache.Valid();
    var m := SelectStarMutation(id, entry.viewerHasStarred);
    cache.RunUpdate(m.update, Starrable(m.id));
    var read := cache.ReadFragment(CacheKey(id));
    seen := read.value.stargazers.totalCount;
  }
}
