# Favorites query cache, modelled in Dafny

This project models the only component of the recipe front end that has real logic:
the in-memory query cache with a five-minute time-to-live, and the favorites hooks
that read through it and invalidate it after a toggle.

- `option.dfy` — module `Optional`: `Option<T>`, standing for `null`/`undefined`.
- `query_cache.dfy` — module `QueryCache`: the store as class `Cache<T>` with a
  `map<string, Entry<T>>` field, the TTL constant (300000 ms), the methods `Get`,
  `Set`, `Invalidate` and `InvalidateAll`, the functions `Peek` (what a read returns)
  and `Evict` (what a read leaves behind) that specify `Get`, and lemmas about them.
- `favorites.dfy` — module `Favorites`: the key derivation `favorites_<user>`, the
  list hook (`FavoritesHook`: `favorites`, `loading`, `error` and the read-through
  `FetchFavorites`), the toggle hook (`ToggleHook`: invalidate-on-write), and the
  membership view (`IsFavoritedHook`: `IsFavorited`, and a toggle that refetches).

Time is an integer number of milliseconds passed in by the caller. A fetch takes
two times: `now`, when the cache is read, and `doneAt`, when the remote answer
arrives and is stored. The remote favorites service is represented by the answer it
gives, a `Response<D>`: `Success(data)`, `Failure(message)` (an answer with
`success: false`) or `Fault(message)` (a thrown error). A missing `data` is `None`,
and a missing message is the empty string, since `message || default` treats both
the same way. The list hook's cached value is always an array, and arrays are
truthy, so its `if (cachedData)` test is a hit exactly when `Peek` returns `Some`.

Two behaviours of the source are kept as written:
- After a toggle, the list is refetched only when the toggle's result is truthy
  (src/hooks/useFavorites.js:131). A successful toggle whose `data` is falsy
  invalidates the cache but does not refetch.
- An unforced fetch that finds an expired entry evicts it before the remote call
  (src/utils/queryCache.js:18-19). So a failed or faulted fetch leaves the store as
  that read left it, which `FetchFavorites` states through `AfterLookup`.

## Model

| member | source | states |
|---|---|---|
| QueryCache.Peek | src/utils/queryCache.js:12-25 | a read hits exactly when the key is present and its age is at most the TTL, and then returns the stored data |
| QueryCache.Evict | src/utils/queryCache.js:17-21 | a read keeps every other entry as it was, and keeps the key exactly when it is present and not expired |
| QueryCache.Cache.Get | src/utils/queryCache.js:12-25 | returns `Peek` and leaves `Evict`: an absent key misses with no change; an expired entry is deleted and misses; a live entry is returned and the store is untouched, timestamp included |
| QueryCache.Cache.Set | src/utils/queryCache.js:32-39 | the key now maps to the data stamped with the current time; every other entry is unchanged |
| QueryCache.Cache.Invalidate | src/utils/queryCache.js:45-48 | removes only that key; nothing changes when the key is absent |
| QueryCache.Cache.InvalidateAll | src/utils/queryCache.js:53-56 | the store is empty, so every later read of any key at any time misses |
| QueryCache.Cache.constructor | src/utils/queryCache.js:3 | the store starts empty |
| QueryCache.AbsentKeyMisses | src/utils/queryCache.js:13-14 | a key never stored, or removed, reads as a miss and leaves the store unchanged |
| QueryCache.SetThenGet | src/utils/queryCache.js:17-24 | a stored value is read back exactly while its age is at most the TTL; after that the read misses and drops only that key |
| QueryCache.ExpiryBoundary | src/utils/queryCache.js:17 | an entry aged exactly 300000 ms is a hit; one millisecond later it is a miss |
| QueryCache.LastSetWins | src/utils/queryCache.js:34-38 | a second store under a key overwrites the first, with its own timestamp |
| QueryCache.SetLeavesOtherKeys | src/utils/queryCache.js:38 | storing under one key does not change what any other key reads |
| QueryCache.GetIdempotent | src/utils/queryCache.js:12-25 | reading twice at the same time gives the same result, and the second read changes nothing |
| QueryCache.RepeatedHits | src/utils/queryCache.js:17-24 | a hit at a later time means every earlier read returns the same value and leaves the store as it was |
| QueryCache.InvalidateMisses | src/utils/queryCache.js:45-48 | after invalidation the key misses; other keys read as before; invalidating twice equals invalidating once |
| QueryCache.ClearedStoreMisses | src/utils/queryCache.js:53-56 | after the store is cleared, every read misses |
| Favorites.FavoritesKey | src/hooks/useFavorites.js:23 | the key is `favorites_` followed by the user identifier, which can be read back from it |
| Favorites.FavoritesKeyInjective | src/hooks/useFavorites.js:83 | two users share a key exactly when they are the same user |
| Favorites.MessageOr | src/hooks/useFavorites.js:52 | the error text is the message when it is non-empty, otherwise the default text, and is never empty |
| Favorites.DataOrEmpty | src/hooks/useFavorites.js:47 | the fetched list is the answer's data, or empty when the data is missing |
| Favorites.AnyWithId | src/hooks/useFavorites.js:127 | true exactly when some element of the list has that recipe id |
| Favorites.FavoritesHook.constructor | src/hooks/useFavorites.js:19-23 | the list starts empty and loading, with no error |
| Favorites.FavoritesHook.FetchFavorites | src/hooks/useFavorites.js:25-60 | the remote service is asked exactly when forced or on a miss; on a hit, the cached list is shown and the cache is untouched; on success, the list and the cache entry both become `data or []`; on failure, the error is set and the list is kept; on a fault, the error is set and the list emptied; the cache is never written on failure; loading always ends false |
| Favorites.FavoritesHook.Refetch | src/hooks/useFavorites.js:71 | a forced fetch: the remote service's answer is applied as above, with no cache read and therefore no eviction |
| Favorites.ToggleHook.constructor | src/hooks/useFavorites.js:80-83 | not loading, no error |
| Favorites.ToggleHook.ToggleFavorite | src/hooks/useFavorites.js:85-109 | on success, drops the user's cache entry and returns the answer's data; on failure or fault, sets the error, leaves the cache unchanged and returns nothing; loading ends false |
| Favorites.IsFavoritedHook.constructor | src/hooks/useFavorites.js:123-125 | a list hook and a toggle hook for the same user over the same cache |
| Favorites.IsFavoritedHook.IsFavorited | src/hooks/useFavorites.js:127 | holds exactly when some favorite in the shown list has this recipe's id |
| Favorites.IsFavoritedHook.Loading | src/hooks/useFavorites.js:141 | the view is loading exactly when the list hook or the toggle hook is loading |
| Favorites.IsFavoritedHook.ToggleFavorite | src/hooks/useFavorites.js:129-137 | returns the toggle's result; a forced refetch runs only when that result is truthy, and then the list and the cache follow the refetch's answer; otherwise the list hook is untouched and the cache lost the entry only if the toggle succeeded |
| Favorites.OtherScopesUnaffected | src/hooks/useFavorites.js:83-97 | invalidating one user's key never changes what another user's key reads |
| Favorites.ToggleThenReadMisses | src/hooks/useFavorites.js:95-97 | after a successful toggle, the next unforced read misses, so the fetch goes to the remote service whatever the entry's age |
| Favorites.FetchThenReadHits | src/hooks/useFavorites.js:46-50 | after a successful fetch, an unforced fetch within the TTL hits with exactly the fetched list |

## Left out

- Wall-clock reads (`new Date()`): time is passed in as integer milliseconds.
- The remote favorites service and the user-identifier service: they are represented by their answers and by a string parameter. The request a toggle sends (recipe id and user identifier) is not modelled.
- React machinery (state setters, `useCallback`, re-rendering), the mount-time `useEffect` fetch (a call of `FetchFavorites` with `forceRefetch` false), and `console.log`.
- Async interleaving: each call runs as one atomic step, so races between concurrent fetches and toggles are not modelled.
- Favorite records hold only their `id`; other fields are opaque to this logic. Ids are strings compared by value, which matches `===` for strings.
- The user identifier: `useFavorites` and `useToggleFavorite` each ask the user service for it separately (src/hooks/useFavorites.js:22, 82). The model passes one identifier to both hooks of `IsFavoritedHook`, so it assumes that service returns the same value each time; if it did not, a toggle could invalidate a key other than the one the list reads.
- Falsy values other than `null`/`undefined`/`""` for `data` and messages (for example `0` or `false`) are folded into `None` and the empty string.
- src/main.jsx and src/pages/ProfilePage.jsx are not part of this model: they are navigation and rendering.
