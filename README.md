# HackerNewsService in Dafny

This project models `HackerNewsService`, the core of a small web API that serves the newest Hacker News stories, and proves properties of the model.

The service has two operations:

- **GetStoryAsync** (private) resolves one story id through an in-memory cache. A hit is served from the cache. On a miss the service fetches `item/{id}.json`, fails on a non-success status or a null story, and otherwise stores the story under the key `HackerNewsStory-{id}`.
- **GetNewestStoriesAsync** runs a fixed pipeline:
  1. Fetch the list of newest story ids.
  2. Resolve every id through GetStoryAsync, all at once, with `Task.WhenAll`.
  3. Keep the stories whose title contains the optional filter, ignoring case.
  4. Count them; that count is `TotalStories`.
  5. Return the page `Skip((pageNumber - 1) * pageSize).Take(pageSize)`.

The project has six modules:

- `Models` (`models.dfy`) holds the data model:
  - `Story` and `PagedStoriesResponse`.
  - The error kinds the service can end with.
  - The outcomes the remote API can give: `ListFetch` for the list, `ItemFetch` for one item.
  - The cache, as a map from key to `CacheValue`. A `CacheValue` is a story, a null entry, or a value of another type.
- `CacheKeys` (`cache_keys.dfy`) builds story cache keys from the default template and proves that distinct ids never share a key.
- `TitleFilter` (`title_filter.dfy`) models the ordinal, case-insensitive `Contains` and the `Where` filter built on it.
- `Paging` (`paging.dfy`) models LINQ `Skip`/`Take`. It also models the 32-bit skip count as the code computes it.
- `Resolution` (`resolution.dfy`) covers the id lookups:
  - `ResolveOne` models GetStoryAsync as a function of the cache and the remote.
  - `ResolveAll` resolves a whole list the way `Task.WhenAll` does.
- `Service` (`service.dfy`) holds the whole request:
  - `NewestStories` is a pure specification of one call of GetNewestStoriesAsync: the response, the cache afterwards, and the ids fetched from the remote.
  - Class `HackerNewsService` holds the mutable cache and a ghost log of remote item fetches. Its methods `GetStory`, `ResolveStories` and `GetNewestStories` perform the work step by step, and each is proved equal to its specification function.

Three behaviours of the code that the model keeps:

- **Item failures.** A failed item lookup is not dropped from the result: any exception from GetStoryAsync propagates through `Task.WhenAll` (lines 42-46) and fails the whole call. That includes a non-success status, a null story and a null cache entry. The `story != null` filter on line 46 never removes anything, because GetStoryAsync never returns null.
- **Which error is reported.** When lookups fail with exceptions, `await Task.WhenAll` rethrows the exception of the first faulted task in list order. Every id is still resolved, and the successful ones still fill the cache. `ResolveAll` models this case. Canceled tasks are not modelled; see "## Left out".
- **Null cache entries.** A null entry under a story key counts as a hit that yields null (`TryGetValue` returns true). Line 86 then fails with "not found", and `LookupStory` models that. An entry holding a value of another type counts as a miss.

## Model

| member | source | states |
|---|---|---|
| CacheKeys.KeyOf | Services/HackerNewsService.cs:68 | The cache key of a story id: `string.Format` of the default template with the id. It is characterised by `CacheKeys.KeyRoundTrip` and `CacheKeys.KeyOfInjective`. |
| CacheKeys.KeyRoundTrip | Services/HackerNewsService.cs:68 | The story id can be read back from the cache key formatted for it with the template `HackerNewsStory-{0}`. |
| CacheKeys.KeyOfInjective | Common/CacheSettings.cs:6 | Two different story ids never get the same cache key. |
| CacheKeys.DecimalRoundTrip | Services/HackerNewsService.cs:68 | Parsing the decimal digits that `string.Format` writes for a non-negative id gives back the id. |
| TitleFilter.StartsWithIgnoreCase | Services/HackerNewsService.cs:50 | True exactly when the value fits in the text at index 0 and matches it there, comparing characters after upper-casing. |
| TitleFilter.ContainsIgnoreCase | Services/HackerNewsService.cs:50 | `Contains(title, OrdinalIgnoreCase)`: true exactly when the value occurs at some index of the text, comparing characters after upper-casing. |
| TitleFilter.KeepMatching | Services/HackerNewsService.cs:49-50 | The `Where` on the title: the stories whose title contains the filter, in order. It is characterised by `KeepMatchingSelects`, `KeepMatchingConcat`, `KeepMatchingCount` and `KeepMatchingPartition`. |
| TitleFilter.FilterByTitle | Services/HackerNewsService.cs:47-51 | A null or empty filter keeps every story; otherwise `KeepMatching` applies. It is characterised by `Service.NoFilterKeepsAll` and `Service.FilteredPageMatches`. |
| TitleFilter.KeepMatchingSelects | Services/HackerNewsService.cs:49-50 | A story is kept by the filter if and only if it is one of the input stories and its title contains the filter. |
| TitleFilter.KeepMatchingConcat | Services/HackerNewsService.cs:49-50 | Filtering preserves order: filtering a concatenation equals concatenating the filtered parts. |
| TitleFilter.KeepMatchingAll | Services/HackerNewsService.cs:49-50 | When every title contains the filter, the filter returns its input unchanged. |
| TitleFilter.NoTitleMatches | Services/HackerNewsService.cs:49-50 | When no title contains the filter, the filter returns nothing. |
| TitleFilter.KeepMatchingCount | Services/HackerNewsService.cs:49-53 | The filter keeps exactly as many stories as there are positions whose title contains the filter, which is the count line 53 takes. |
| TitleFilter.KeepMatchingPartition | Services/HackerNewsService.cs:49-53 | The kept stories and the dropped stories together are exactly the input, counted with multiplicity. |
| Paging.Skip | Services/HackerNewsService.cs:56 | LINQ `Skip`: a count at or below zero skips nothing, a count at or past the end skips everything. It is characterised, together with `Take`, by `Paging.PageIsSlice` and `Paging.PageBounded`. |
| Paging.Take | Services/HackerNewsService.cs:56 | LINQ `Take`: a count at or below zero takes nothing, a count at or past the end takes everything. It is characterised by `Paging.PageIsSlice`, `Paging.PageBounded` and `Paging.PagesTile`. |
| Paging.Paginate | Services/HackerNewsService.cs:56 | `Skip((pageNumber - 1) * pageSize).Take(pageSize)` with the offset computed exactly. This is the corrected form of line 56, characterised by `Paging.PageIsSlice`, `Paging.PageBounded` and `Paging.PagesTile`. |
| Paging.SkipCountAsWritten | Services/HackerNewsService.cs:56 | The skip count as line 56 computes it, in 32-bit wrapping arithmetic. It is characterised by `Paging.Wrap32` and `Paging.OffsetOverflowServesFirstPage`. |
| Paging.PaginateAsWritten | Services/HackerNewsService.cs:56 | Line 56 as written, with the wrapped skip count. It is characterised by `Paging.AsWrittenAgreesWithoutOverflow` and `Paging.OffsetOverflowServesFirstPage`. |
| Paging.PageIsSlice | Services/HackerNewsService.cs:56 | For page number and size at least 1: the offset is non-negative, and the page has at most `pageSize` items. A page starting at or past the end is empty. Otherwise the page is the contiguous slice from `(pageNumber - 1) * pageSize` to that plus `pageSize`, cut at the end of the list. |
| Paging.PageBounded | Services/HackerNewsService.cs:56 | For any arguments, a page holds at most `max(pageSize, 0)` items, all taken from the list. |
| Paging.PagesTile | Services/HackerNewsService.cs:56 | The first `n` pages of size `pageSize`, in order, are exactly the first `n * pageSize` items: no item is skipped or repeated. |
| Paging.Wrap32 | Services/HackerNewsService.cs:56 | C# unchecked `int` arithmetic: a value that fits in 32 bits is unchanged, and any value is congruent to its result modulo 2^32. |
| Paging.AsWrittenAgreesWithoutOverflow | Services/HackerNewsService.cs:56 | When `(pageNumber - 1) * pageSize` fits in an `int`, the 32-bit computation as written returns the intended page. |
| Paging.OffsetOverflowServesFirstPage | Services/HackerNewsService.cs:56 | For page 65537 of size 65536 the intended page is empty, but the code as written returns the first 65536 stories. |
| Resolution.LookupStory | Services/HackerNewsService.cs:69 | `TryGetValue<Story>`: a story entry is a hit, a null entry is a hit that yields null, and an absent entry or an entry of another type is a miss. It is characterised by `Resolution.ResolveOneCacheAside` and `Resolution.ResolveOneFailures`. |
| Resolution.ResolveOne | Services/HackerNewsService.cs:66-87 | GetStoryAsync as a function of the cache and the remote: the result, the cache afterwards, and the fetched ids. It is characterised by `ResolveOneCacheAside`, `ResolveOneFailures`, `ResolveOneFrame` and `ResolveOneKeepsHits`. |
| Resolution.ResolveOneCacheAside | Services/HackerNewsService.cs:66-87 | On a hit: the cached story, no remote call, and an unchanged cache. The remote is called exactly when the lookup misses. On success the story is cached under the id's key afterwards, and it came from the cache or from the remote. On failure the cache is unchanged. |
| Resolution.ResolveOneFailures | Services/HackerNewsService.cs:69-86 | A lookup fails if and only if the cache holds null for the key, or the lookup missed and the fetch did not produce a story. Each failure kind gives its own error: a null entry gives "not found", and on a miss a non-success status, an unparsable payload or a null story each give theirs. |
| Resolution.ResolveOneFrame | Services/HackerNewsService.cs:83 | Resolving one id changes no cache key other than that id's key, neither its presence nor its value. |
| Resolution.ResolveOneKeepsHits | Services/HackerNewsService.cs:69-83 | A story that is cached stays cached, unchanged, when another id is resolved. |
| Resolution.ResolveAll | Services/HackerNewsService.cs:42-43 | A successful resolution yields one story per id. At most one remote fetch is made per id. |
| Resolution.FetchedAreListed | Services/HackerNewsService.cs:42 | Only ids from the list are fetched from the remote. |
| Resolution.ResolveAllSucceedsIff | Services/HackerNewsService.cs:42-43 | The list resolves if and only if every id resolves. The `k`-th story is the result of resolving `ids[k]` against the cache left by the ids before it. |
| Resolution.ResolveAllFirstFailure | Services/HackerNewsService.cs:43 | A failed list reports the error of the first id, in list order, whose resolution failed. All ids before that one resolved. |
| Resolution.ResolveAllKeepsHits | Services/HackerNewsService.cs:69-83 | A cached story is still cached, unchanged, after a whole list is resolved. |
| Resolution.CachedIdNeverFetched | Services/HackerNewsService.cs:69 | An id whose story is cached at the start is never fetched from the remote. |
| Resolution.AllCachedNoFetch | Services/HackerNewsService.cs:69 | When every id is cached, resolution succeeds with no remote call and no cache change. The stories are the cached ones, in list order. |
| Resolution.ResolvedStoriesAreCached | Services/HackerNewsService.cs:83 | After a successful resolution, every id's story is cached under that id's key. |
| Resolution.RepeatResolutionServedFromCache | Services/HackerNewsService.cs:69 | Resolving the same list again right after a success gives the same stories, with no remote call and no cache change. |
| Resolution.UnrelatedKeyStaysAbsent | Services/HackerNewsService.cs:83 | Resolving a list never creates a key that is not the key of a listed id. |
| Resolution.ColdStep | Services/HackerNewsService.cs:69-83 | Assume a cold cache, distinct keys, and a remote that returns a story for each id. Then the `k`-th resolution misses, fetches `ids[k]` and returns the remote's story. |
| Resolution.ColdCacheFetchesEveryId | Services/HackerNewsService.cs:42-43 | Under the same assumptions, resolution succeeds, fetches exactly the listed ids in list order, and returns the remote's stories in list order. |
| Service.PageOf | Services/HackerNewsService.cs:46-56 | Filter the resolved stories by title, count them, then page them. It is characterised by `TotalIgnoresPaging`, `NoFilterKeepsAll`, `FilteredPageMatches`, `NoMatchIsEmpty` and `PageIsFilteredSlice`. |
| Service.NewestStories | Services/HackerNewsService.cs:27-64 | One call of GetNewestStoriesAsync: the response, the cache afterwards, and the fetched ids. It is characterised by `ListOutcomes`, `WholeCallFailsOnAnyItemFailure`, `StoriesFollowListOrder`, `CachedStoryNotFetched`, `RepeatCallServedFromCache` and `ColdCacheFetchesAll`. It pages with the exact offset; see "## Left out". |
| Service.TotalIgnoresPaging | Services/HackerNewsService.cs:53-56 | `TotalStories` is counted before paging, so it does not depend on the page number or page size. |
| Service.NoFilterKeepsAll | Services/HackerNewsService.cs:47 | With a null or empty filter, `TotalStories` is the number of stories and the page is taken from all of them. |
| Service.FilteredPageMatches | Services/HackerNewsService.cs:47-53 | With a filter, `TotalStories` is the number of stories whose title contains the filter (`CountMatching`), which is also the number of stories minus the number the filter drops. Every story on the page is an input story whose title contains the filter. |
| Service.NoMatchIsEmpty | Tests/Services/HackerNewsServiceTests.cs:106-110 | A filter that no title contains yields an empty page and a count of 0. |
| Service.PageIsFilteredSlice | Services/HackerNewsService.cs:53-56 | `TotalStories` is the filtered count. The page is the contiguous slice of the filtered stories at the page's offset, at most `pageSize` long, and empty past the end. |
| Service.ListOutcomes | Services/HackerNewsService.cs:30-39 | A non-success list status or an unparsable list fails the call. A null list gives total 0 and no stories. In all three cases no item is fetched and the cache is untouched. |
| Service.WholeCallFailsOnAnyItemFailure | Services/HackerNewsService.cs:42-46 | A call with an id list succeeds if and only if every id resolves. A failed call reports the error of the first failing id in list order. |
| Service.StoriesFollowListOrder | Services/HackerNewsService.cs:42-56 | On success, the stories passed to filtering are the ids' resolutions, one per id, in list order. The response is the filtered, counted, paged result of them. |
| Service.CachedStoryNotFetched | Tests/Services/HackerNewsServiceTests.cs:117-126 | A story cached before the call is not fetched from the remote during the call. When the call succeeds, every position of that id in the list holds the cached story. |
| Service.RepeatCallServedFromCache | Services/HackerNewsService.cs:69-83 | After a successful call, a second call with the same id list makes no remote item call and leaves the cache unchanged. For the same arguments it returns the same response. |
| Service.ColdCacheFetchesAll | Services/HackerNewsService.cs:27-64 | With distinct ids, none of them cached, and every item fetch succeeding: each id is fetched once, in list order. The response is the filtered, counted, paged list of the remote's stories, in list order. |
| Service.HackerNewsService.constructor | Services/HackerNewsService.cs:15-25 | The service starts with the given remote and cache, and with no recorded fetches. |
| Service.HackerNewsService.GetStory | Services/HackerNewsService.cs:66-87 | The method performs GetStoryAsync on the object's cache. Its result, the new cache and the appended remote fetches are those of `ResolveOne` on the old cache. |
| Service.HackerNewsService.ResolveStories | Services/HackerNewsService.cs:42-43 | The loop resolves the ids one by one. Its result, the new cache and the appended remote fetches are those of `ResolveAll` on the old cache. |
| Service.HackerNewsService.GetNewestStories | Services/HackerNewsService.cs:27-64 | The method performs GetNewestStoriesAsync with the exact page offset. Its response, the new cache and the appended remote fetches are those of `NewestStories` on the old cache. |

## Left out

- HTTP transport and JSON deserialisation are not modelled. The remote is a parameter that gives, for the list and for each id, one of the outcomes the code distinguishes: a value, null, a non-success status, or an unparsable payload. The HTTP client setup in the constructor (base address, argument null checks) is left out.
- Service.NewestStories / Service.HackerNewsService.GetNewestStories: both page with `Paging.Paginate`, which computes the offset `(pageNumber - 1) * pageSize` exactly. When that product overflows a 32-bit `int`, they return the intended page, not the page the wrapped offset selects. Line 56 as written is modelled separately by `Paging.PaginateAsWritten`; see "## Findings".
- Timeouts and cancellation are not modelled. An item fetch that times out ends as a canceled task, not a faulted one. `Task.WhenAll` then reports a faulted task ahead of any canceled one, whatever their list order. The model's error is always that of the first failing id in list order.
- `Task.WhenAll` runs the lookups concurrently. The model resolves them one after the other, in list order. A real interleaving can let two lookups of the same id both miss and both fetch. The model does not capture that race, so lemmas about fetch counts assume distinct ids.
- Sliding expiration (line 82, `SlidingExpirationMinutes`) needs a clock and cache eviction. Entries in the model never expire.
- Case folding covers ASCII letters only. `OrdinalIgnoreCase` also folds other Unicode letters.
- A story payload without a title deserialises with a null `Title`, because Newtonsoft ignores `required`. `Contains` then throws on line 50. The model's `Story.title` is never null.
- Cache keys use the default template `HackerNewsStory-{0}` and invariant-culture decimal formatting. A differently configured template is not modelled.
- Story ids are unbounded integers rather than 32-bit `int`. This changes nothing the model states.
- The null-story filter on line 46 is not modelled as a separate step. It never removes a story, because every failure has already failed the call.
- The controller, `Program.cs`, the settings classes and the tests are not part of this model. The tests only serve as citations for two properties.

## Findings

| source | as written | input that shows it | evidently intended | confidence | as-written member | corrected member |
|---|---|---|---|---|---|---|
| Services/HackerNewsService.cs:56 | `(pageNumber - 1) * pageSize` is computed in unchecked 32-bit `int` arithmetic and wraps around | `pageNumber = 65537`, `pageSize = 65536`: the product 2^32 wraps to 0, so the first 65536 stories are returned | the page at offset `(pageNumber - 1) * pageSize`, which is empty for any list shorter than 2^32 | not executed | Paging.OffsetOverflowServesFirstPage | Paging.PageIsSlice |
