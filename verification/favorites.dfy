/**
 * The favorites data-access flow: a read-through fetch of a user's favorite
 * recipes over the shared query cache, a toggle that invalidates that cache entry
 * on success, and the "is this recipe a favorite" view that refetches after a
 * toggle.
 *
 * Each asynchronous call is one sequential step. The remote favorites service is
 * not modelled: the answer it gives is passed in as a `Response`, and the user
 * identifier it keeps is passed in as a string.
 */
module Favorites {
  import opened Optional
  import QueryCache

  /** The fixed prefix of every favorites cache key. */
  const KeyPrefix: string := "favorites_"

  const FetchFailedText: string := "Failed to fetch favorites"
  const FetchFaultText: string := "An error occurred while fetching favorites"
  const ToggleFailedText: string := "Failed to toggle favorite"
  const ToggleFaultText: string := "An error occurred while toggling favorite"

  /** A favorite recipe as the list holds it; only its identifier matters here. */
  datatype Favorite = Favorite(id: string)

  /**
   * What a remote call yields: a successful answer whose `data` may be missing,
   * an explicit failure with its message, or a thrown fault with its message.
   * An empty message stands for a missing one (both are falsy).
   */
  datatype Response<D> = Success(data: Option<D>) | Failure(message: string) | Fault(message: string)

  /** The cache key of a user's favorites list; reads and writes both use it. */
  function FavoritesKey(userIdentifier: string): (key: string)
    ensures |key| == |KeyPrefix| + |userIdentifier|
    ensures key[..|KeyPrefix|] == KeyPrefix
    ensures key[|KeyPrefix|..] == userIdentifier
  {
    KeyPrefix + userIdentifier
  }

  /** Distinct users never share a cache key. */
  lemma FavoritesKeyInjective(u1: string, u2: string)
    ensures FavoritesKey(u1) == FavoritesKey(u2) <==> u1 == u2
  {
  }

  /** JavaScript's `message || fallback`: the message unless it is empty. */
  function MessageOr(message: string, fallback: string): (text: string)
    ensures text == message || text == fallback
    ensures fallback != "" ==> text != ""
    ensures message != "" ==> text == message
  {
    if message != "" then message else fallback
  }

  /** JavaScript's `data || []` for a fetched list. */
  function DataOrEmpty(data: Option<seq<Favorite>>): (list: seq<Favorite>)
    ensures data.Some? ==> list == data.value
    ensures data.None? ==> list == []
  {
    match data
    case Some(d) => d
    case None => []
  }

  /** Whether some favorite in the list has the identifier `recipeId`, scanning
      from the front as `Array.prototype.some` does. */
  function AnyWithId(favorites: seq<Favorite>, recipeId: string): (found: bool)
    ensures found <==> exists i :: 0 <= i < |favorites| && favorites[i].id == recipeId
  {
    if favorites == [] then false
    else favorites[0].id == recipeId || AnyWithId(favorites[1..], recipeId)
  }

  /** The favorites list hook: its list, loading flag and error, over the shared cache. */
  class FavoritesHook {
    const cache: QueryCache.Cache<seq<Favorite>>
    const userIdentifier: string
    var favorites: seq<Favorite>
    var loading: bool
    var error: Option<string>

    /** The cache key this hook reads and writes. */
    function CacheKey(): string
    {
      FavoritesKey(userIdentifier)
    }

    /** The hook's initial state, before its first fetch. */
    constructor (cache: QueryCache.Cache<seq<Favorite>>, userIdentifier: string)
      ensures this.cache == cache && this.userIdentifier == userIdentifier
      ensures favorites == [] && loading && error == None
    {
      this.cache := cache;
      this.userIdentifier := userIdentifier;
      favorites := [];
      loading := true;
      error := None;
    }

    /**
     * Fetches the list. Unless `forceRefetch`, the cache is read first at time
     * `now`; a hit ends the fetch there. Otherwise the remote answer `response`
     * is used, and on success it is stored at time `doneAt`. The ghost result
     * `remoteCalled` tells whether the remote service was asked; the fetch itself
     * returns nothing.
     */
    method FetchFavorites(forceRefetch: bool, now: int, response: Response<seq<Favorite>>, doneAt: int)
      returns (ghost remoteCalled: bool)
      modifies this, cache
      ensures remoteCalled <==>
                forceRefetch || QueryCache.Peek(old(cache.entries), CacheKey(), now).None?
      ensures !loading
      // A cache hit: the cached list is shown and nothing else changes.
      ensures !remoteCalled ==>
                favorites == QueryCache.Peek(old(cache.entries), CacheKey(), now).value &&
                error == None && cache.entries == old(cache.entries)
      // The remote path: the cache as the (possibly skipped) read left it, then the answer.
      ensures remoteCalled && response.Success? ==>
                favorites == DataOrEmpty(response.data) && error == None &&
                cache.entries == AfterLookup(old(cache.entries), forceRefetch, now)
                                   [CacheKey() := QueryCache.Entry(favorites, doneAt)]
      ensures remoteCalled && response.Failure? ==>
                favorites == old(favorites) &&
                error == Some(MessageOr(response.message, FetchFailedText)) &&
                cache.entries == AfterLookup(old(cache.entries), forceRefetch, now)
      ensures remoteCalled && response.Fault? ==>
                favorites == [] &&
                error == Some(MessageOr(response.message, FetchFaultText)) &&
                cache.entries == AfterLookup(old(cache.entries), forceRefetch, now)
    {
      loading := true;
      error := None;
      var key := CacheKey();
      if !forceRefetch {
        var cachedData := cache.Get(key, now);
        if cachedData.Some? {
          favorites := cachedData.value;
          loading := false;
          return false;
        }
      }
      remoteCalled := true;
      match response {
        case Success(data) =>
          var list := DataOrEmpty(data);
          favorites := list;
          cache.Set(key, list, doneAt);
        case Failure(message) =>
          error := Some(MessageOr(message, FetchFailedText));
        case Fault(message) =>
          error := Some(MessageOr(message, FetchFaultText));
          favorites := [];
      }
      loading := false;
    }

    /** The store as the fetch's cache read leaves it: a forced fetch skips the read. */
    function AfterLookup(m: map<string, QueryCache.Entry<seq<Favorite>>>, forceRefetch: bool, now: int)
      : map<string, QueryCache.Entry<seq<Favorite>>>
    {
      if forceRefetch then m else QueryCache.Evict(m, CacheKey(), now)
    }

    /** The hook's `refetch`: a fetch that always asks the remote service. */
    method Refetch(response: Response<seq<Favorite>>, doneAt: int)
      modifies this, cache
      ensures !loading
      ensures response.Success? ==>
                favorites == DataOrEmpty(response.data) && error == None &&
                cache.entries == old(cache.entries)[CacheKey() := QueryCache.Entry(favorites, doneAt)]
      ensures response.Failure? ==>
                favorites == old(favorites) &&
                error == Some(MessageOr(response.message, FetchFailedText)) &&
                cache.entries == old(cache.entries)
      ensures response.Fault? ==>
                favorites == [] &&
                error == Some(MessageOr(response.message, FetchFaultText)) &&
                cache.entries == old(cache.entries)
    {
      ghost var called := FetchFavorites(true, doneAt, response, doneAt);
    }
  }

  /** The toggle hook: its loading flag and error, over the shared cache. */
  class ToggleHook {
    const cache: QueryCache.Cache<seq<Favorite>>
    const userIdentifier: string
    var loading: bool
    var error: Option<string>

    /** The cache key this hook invalidates. */
    function CacheKey(): string
    {
      FavoritesKey(userIdentifier)
    }

    constructor (cache: QueryCache.Cache<seq<Favorite>>, userIdentifier: string)
      ensures this.cache == cache && this.userIdentifier == userIdentifier
      ensures !loading && error == None
    {
      this.cache := cache;
      this.userIdentifier := userIdentifier;
      loading := false;
      error := None;
    }

    /**
     * Asks the remote service to toggle `recipeId` for this user; `response` is
     * its answer. On success the user's cached list is dropped and the answer's
     * data returned; otherwise the cache is left alone and nothing is returned.
     */
    method ToggleFavorite<D>(recipeId: string, response: Response<D>) returns (result: Option<D>)
      modifies this, cache
      ensures !loading
      ensures response.Success? ==>
                result == response.data && error == None &&
                cache.entries == old(cache.entries) - {CacheKey()}
      ensures response.Failure? ==>
                result == None && error == Some(MessageOr(response.message, ToggleFailedText)) &&
                cache.entries == old(cache.entries)
      ensures response.Fault? ==>
                result == None && error == Some(MessageOr(response.message, ToggleFaultText)) &&
                cache.entries == old(cache.entries)
    {
      loading := true;
      error := None;
      match response {
        case Success(data) =>
          cache.Invalidate(CacheKey());
          result := data;
        case Failure(message) =>
          error := Some(MessageOr(message, ToggleFailedText));
          result := None;
        case Fault(message) =>
          error := Some(MessageOr(message, ToggleFaultText));
          result := None;
      }
      loading := false;
    }
  }

  /** The view of one recipe's favorite status: a list hook and a toggle hook for
      the same user over the same cache. */
  class IsFavoritedHook {
    const recipeId: string
    const list: FavoritesHook
    const toggler: ToggleHook

    /** Both hooks share the store and the user. */
    predicate Valid()
    {
      list.cache == toggler.cache && list.userIdentifier == toggler.userIdentifier
    }

    constructor (cache: QueryCache.Cache<seq<Favorite>>, userIdentifier: string, recipeId: string)
      ensures Valid() && fresh(list) && fresh(toggler)
      ensures this.recipeId == recipeId
      ensures list.cache == cache && list.userIdentifier == userIdentifier
      ensures list.favorites == [] && list.loading && list.error == None
      ensures !toggler.loading && toggler.error == None
    {
      this.recipeId := recipeId;
      list := new FavoritesHook(cache, userIdentifier);
      toggler := new ToggleHook(cache, userIdentifier);
    }

    /** Whether the list currently shown holds this recipe. */
    function IsFavorited(): (b: bool)
      reads list
      ensures b <==> exists i :: 0 <= i < |list.favorites| && list.favorites[i].id == recipeId
    {
      AnyWithId(list.favorites, recipeId)
    }

    /** Loading while either hook is. */
    function Loading(): (b: bool)
      reads list, toggler
      ensures b <==> list.loading || toggler.loading
      ensures !list.loading && !toggler.loading ==> !b
    {
      list.loading || toggler.loading
    }

    /**
     * Toggles this recipe (the service answers `toggleResponse`) and, only when
     * the toggle returned something truthy, refetches the list bypassing the
     * cache (the service answers `refetchResponse`, stored at time `doneAt`).
     */
    method ToggleFavorite<D>(toggleResponse: Response<D>, refetchResponse: Response<seq<Favorite>>, doneAt: int)
      returns (result: Option<D>)
      requires Valid()
      modifies list, toggler, list.cache
      ensures result == (if toggleResponse.Success? then toggleResponse.data else None)
      ensures !toggler.loading
      ensures toggler.error == (match toggleResponse
                                case Success(_) => None
                                case Failure(m) => Some(MessageOr(m, ToggleFailedText))
                                case Fault(m) => Some(MessageOr(m, ToggleFaultText)))
      // No refetch: the list is as it was; the cache lost the user's entry only on success.
      ensures result.None? ==>
                list.favorites == old(list.favorites) && list.loading == old(list.loading) &&
                list.error == old(list.error) &&
                list.cache.entries == (if toggleResponse.Success?
                                       then old(list.cache.entries) - {list.CacheKey()}
                                       else old(list.cache.entries))
      // Refetch after a successful toggle.
      ensures result.Some? ==> !list.loading
      ensures result.Some? && refetchResponse.Success? ==>
                list.favorites == DataOrEmpty(refetchResponse.data) && list.error == None &&
                list.cache.entries ==
                  old(list.cache.entries)[list.CacheKey() := QueryCache.Entry(list.favorites, doneAt)]
      ensures result.Some? && refetchResponse.Failure? ==>
                list.favorites == old(list.favorites) &&
                list.error == Some(MessageOr(refetchResponse.message, FetchFailedText)) &&
                list.cache.entries == old(list.cache.entries) - {list.CacheKey()}
      ensures result.Some? && refetchResponse.Fault? ==>
                list.favorites == [] &&
                list.error == Some(MessageOr(refetchResponse.message, FetchFaultText)) &&
                list.cache.entries == old(list.cache.entries) - {list.CacheKey()}
    {
      result := toggler.ToggleFavorite(recipeId, toggleResponse);
      if result.Some? {
        list.Refetch(refetchResponse, doneAt);
      }
    }
  }

  /** Invalidating one user's key never changes what another user's key reads. */
  lemma OtherScopesUnaffected<T>(m: map<string, QueryCache.Entry<T>>, u1: string, u2: string, now: int)
    requires u1 != u2
    ensures QueryCache.Peek(m - {FavoritesKey(u1)}, FavoritesKey(u2), now)
         == QueryCache.Peek(m, FavoritesKey(u2), now)
  {
  }

  /** After a successful toggle dropped the user's key, the next unforced read
      misses, so the fetch asks the remote service, however fresh the entry was. */
  lemma ToggleThenReadMisses<T>(m: map<string, QueryCache.Entry<T>>, u: string, now: int)
    ensures QueryCache.Peek(m - {FavoritesKey(u)}, FavoritesKey(u), now).None?
  {
  }

  /** A successful fetch stores `DataOrEmpty(data)` at `doneAt`; an unforced fetch
      within the TTL afterwards is a hit with exactly that list. */
  lemma FetchThenReadHits(m: map<string, QueryCache.Entry<seq<Favorite>>>, u: string,
                          data: Option<seq<Favorite>>, doneAt: int, now: int)
    requires now - doneAt <= QueryCache.CACHE_TTL
    ensures QueryCache.Peek(m[FavoritesKey(u) := QueryCache.Entry(DataOrEmpty(data), doneAt)],
                            FavoritesKey(u), now) == Some(DataOrEmpty(data))
  {
  }
}
