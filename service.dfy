/** HackerNewsService: GetNewestStoriesAsync (lines 27-64) fetches the id
    list, resolves every id through the cache (GetStoryAsync, lines 66-87),
    filters the stories by title, counts them, and returns one page.

    The pure function `NewestStories` states what one request does to the
    response, the cache and the remote; the class below performs it step by
    step and is proved to agree with it. */
module Service {
  import opened Models
  import opened CacheKeys
  import opened TitleFilter
  import opened Paging
  import opened Resolution

  /** Lines 46-56 on the resolved stories: filter by title, count, then page. */
  function PageOf(stories: seq<Story>, pageNumber: int, pageSize: int, title: Option<string>): PagedStoriesResponse {
    var filtered := FilterByTitle(stories, title);
    PagedStoriesResponse(|filtered|, Paginate(filtered, pageNumber, pageSize))
  }

  /** The result of one request, the cache afterwards, and the ids whose
      items were fetched from the remote, in order. */
  datatype Outcome = Outcome(result: Result<PagedStoriesResponse>, cache: Cache, fetched: seq<int>)

  /** One call of GetNewestStoriesAsync against the cache `cache`. */
  function NewestStories(cache: Cache, remote: Remote, pageNumber: int, pageSize: int, title: Option<string>): Outcome {
    match remote.newStories
    case IdsHttpFailure => Outcome(Err(ListHttpError), cache, [])
    case IdsUnparsable => Outcome(Err(ListParseError), cache, [])
    case IdsNull => Outcome(Ok(PagedStoriesResponse(0, [])), cache, [])
    case IdsOk(ids) =>
      var resolved := ResolveAll(cache, remote.item, KeyOf, ids);
      match resolved.outcome
      case Err(e) => Outcome(Err(e), resolved.cache, resolved.fetched)
      case Ok(stories) => Outcome(Ok(PageOf(stories, pageNumber, pageSize, title)), resolved.cache, resolved.fetched)
  }

  // ---------------------------------------------------------------------
  // Filter, count, page

  /** The count is taken before paging: it does not depend on the page asked for. */
  lemma TotalIgnoresPaging(stories: seq<Story>, title: Option<string>, pageNumber: int, pageSize: int, otherNumber: int, otherSize: int)
    ensures PageOf(stories, pageNumber, pageSize, title).totalStories ==
            PageOf(stories, otherNumber, otherSize, title).totalStories
  {
  }

  /** Without a filter (null or empty) every story counts and the page is
      taken from all of them. */
  lemma NoFilterKeepsAll(stories: seq<Story>, title: Option<string>, pageNumber: int, pageSize: int)
    requires title.None? || title.value == []
    ensures PageOf(stories, pageNumber, pageSize, title) ==
            PagedStoriesResponse(|stories|, Paginate(stories, pageNumber, pageSize))
  {
  }

  /** With a filter, the count is the number of stories whose title contains
      it (equivalently, all stories but the dropped ones), and every story on
      the page is one of them. */
  lemma {:induction false} FilteredPageMatches(stories: seq<Story>, value: string, pageNumber: int, pageSize: int)
    requires value != []
    ensures var p := PageOf(stories, pageNumber, pageSize, Some(value));
            && p.totalStories == CountMatching(stories, value)
            && p.totalStories == |stories| - |KeepNonMatching(stories, value)|
            && forall s :: s in p.stories ==> s in stories && TitleMatches(s, value)
  {
    var filtered := KeepMatching(stories, value);
    KeepMatchingPartition(stories, value);
    assert |multiset(filtered)| + |multiset(KeepNonMatching(stories, value))| == |multiset(stories)|;
    KeepMatchingCount(stories, value);
    KeepMatchingSelects(stories, value);
    PageBounded(filtered, pageNumber, pageSize);
  }

  /** A filter that no title contains yields no stories and a count of zero. */
  lemma NoMatchIsEmpty(stories: seq<Story>, value: string, pageNumber: int, pageSize: int)
    requires value != []
    requires forall s :: s in stories ==> !TitleMatches(s, value)
    ensures PageOf(stories, pageNumber, pageSize, Some(value)) == PagedStoriesResponse(0, [])
  {
    NoTitleMatches(stories, value);
  }

  /** The page is the contiguous run of the filtered stories that starts at
      offset `(pageNumber - 1) * pageSize`, at most `pageSize` long; past the
      end it is empty while the count still covers every filtered story. */
  lemma PageIsFilteredSlice(stories: seq<Story>, pageNumber: int, pageSize: int, title: Option<string>)
    requires pageNumber >= 1 && pageSize >= 1
    ensures var filtered := FilterByTitle(stories, title);
            var p := PageOf(stories, pageNumber, pageSize, title);
            var offset := (pageNumber - 1) * pageSize;
            && p.totalStories == |filtered|
            && |p.stories| <= pageSize
            && (offset >= |filtered| ==> p.stories == [])
            && (offset < |filtered| ==> p.stories == filtered[offset..Min(offset + pageSize, |filtered|)])
  {
    PageIsSlice(FilterByTitle(stories, title), pageNumber, pageSize);
  }

  // ---------------------------------------------------------------------
  // Whole requests

  /** A list endpoint failure fails the call; a null list is an empty
      response. In these cases no item is resolved and the cache is untouched. */
  lemma ListOutcomes(cache: Cache, remote: Remote, pageNumber: int, pageSize: int, title: Option<string>)
    ensures var o := NewestStories(cache, remote, pageNumber, pageSize, title);
            && (remote.newStories.IdsHttpFailure? ==> o == Outcome(Err(ListHttpError), cache, []))
            && (remote.newStories.IdsUnparsable? ==> o == Outcome(Err(ListParseError), cache, []))
            && (remote.newStories.IdsNull? ==> o == Outcome(Ok(PagedStoriesResponse(0, [])), cache, []))
  {
  }

  /** No partial responses: a request for a list succeeds exactly when every
      id resolves, and a failed one reports the first failing id in list order. */
  lemma WholeCallFailsOnAnyItemFailure(cache: Cache, remote: Remote, pageNumber: int, pageSize: int, title: Option<string>)
    requires remote.newStories.IdsOk?
    ensures var ids := remote.newStories.ids;
            var o := NewestStories(cache, remote, pageNumber, pageSize, title);
            && (o.result.Ok? <==>
                forall k :: 0 <= k < |ids| ==> StepAt(cache, remote.item, KeyOf, ids, k).outcome.Ok?)
            && (o.result.Err? ==>
                exists k :: 0 <= k < |ids| &&
                  StepAt(cache, remote.item, KeyOf, ids, k).outcome == Err(o.result.error) &&
                  forall j :: 0 <= j < k ==> StepAt(cache, remote.item, KeyOf, ids, j).outcome.Ok?)
  {
    var ids := remote.newStories.ids;
    ResolveAllSucceedsIff(cache, remote.item, KeyOf, ids);
    if ResolveAll(cache, remote.item, KeyOf, ids).outcome.Err? {
      ResolveAllFirstFailure(cache, remote.item, KeyOf, ids);
    }
  }

  /** The page is taken from the ids' stories in list order: the story of
      `ids[k]` is the one its resolution returned. */
  lemma StoriesFollowListOrder(cache: Cache, remote: Remote, pageNumber: int, pageSize: int, title: Option<string>)
    requires remote.newStories.IdsOk?
    requires ResolveAll(cache, remote.item, KeyOf, remote.newStories.ids).outcome.Ok?
    ensures var ids := remote.newStories.ids;
            var stories := ResolveAll(cache, remote.item, KeyOf, ids).outcome.value;
            && |stories| == |ids|
            && (forall k :: 0 <= k < |ids| ==> StepAt(cache, remote.item, KeyOf, ids, k).outcome == Ok(stories[k]))
            && NewestStories(cache, remote, pageNumber, pageSize, title).result.value ==
               PageOf(stories, pageNumber, pageSize, title)
  {
    ResolveAllSucceedsIff(cache, remote.item, KeyOf, remote.newStories.ids);
  }

  /** A story cached before the request is not fetched again, and when the
      request succeeds it is the cached story that is served for that id. */
  lemma CachedStoryNotFetched(cache: Cache, remote: Remote, pageNumber: int, pageSize: int, title: Option<string>, id: int)
    requires LookupStory(cache, KeyOf(id)).Hit?
    ensures id !in NewestStories(cache, remote, pageNumber, pageSize, title).fetched
    ensures remote.newStories.IdsOk? && ResolveAll(cache, remote.item, KeyOf, remote.newStories.ids).outcome.Ok? ==>
              forall k :: 0 <= k < |remote.newStories.ids| && remote.newStories.ids[k] == id ==>
                ResolveAll(cache, remote.item, KeyOf, remote.newStories.ids).outcome.value[k] == LookupStory(cache, KeyOf(id)).story
  {
    if remote.newStories.IdsOk? {
      var ids := remote.newStories.ids;
      CachedIdNeverFetched(cache, remote.item, KeyOf, ids, id);
      ResolveAllSucceedsIff(cache, remote.item, KeyOf, ids);
      forall k | 0 <= k < |ids| && ids[k] == id
        ensures StepAt(cache, remote.item, KeyOf, ids, k).outcome == Ok(LookupStory(cache, KeyOf(id)).story)
      {
        ResolveAllKeepsHits(cache, remote.item, KeyOf, ids[..k], KeyOf(id));
      }
    }
  }

  /** A request repeated after a successful one, with the same id list, is
      served from the cache: no remote item call, no change to the cache, and
      the same response when the same page is asked for. */
  lemma RepeatCallServedFromCache(cache: Cache, remote: Remote, pageNumber: int, pageSize: int, title: Option<string>,
                                  nextNumber: int, nextSize: int, nextTitle: Option<string>)
    requires NewestStories(cache, remote, pageNumber, pageSize, title).result.Ok?
    ensures var first := NewestStories(cache, remote, pageNumber, pageSize, title);
            var again := NewestStories(first.cache, remote, nextNumber, nextSize, nextTitle);
            && again.result.Ok?
            && again.fetched == []
            && again.cache == first.cache
            && (nextNumber == pageNumber && nextSize == pageSize && nextTitle == title ==> again.result == first.result)
  {
    if remote.newStories.IdsOk? {
      RepeatResolutionServedFromCache(cache, remote.item, KeyOf, remote.newStories.ids);
    }
  }

  /** With none of the listed stories cached, distinct ids and every item
      fetch succeeding, each id is fetched once, in list order, and the page
      is taken from the remote's stories in list order. */
  lemma {:induction false} ColdCacheFetchesAll(cache: Cache, remote: Remote, pageNumber: int, pageSize: int, title: Option<string>)
    requires remote.newStories.IdsOk?
    requires forall k :: 0 <= k < |remote.newStories.ids| ==>
               KeyOf(remote.newStories.ids[k]) !in cache && remote.item(remote.newStories.ids[k]).ItemOk?
    requires forall i, j :: 0 <= i < j < |remote.newStories.ids| ==> remote.newStories.ids[i] != remote.newStories.ids[j]
    ensures var ids := remote.newStories.ids;
            var o := NewestStories(cache, remote, pageNumber, pageSize, title);
            && o.fetched == ids
            && o.result == Ok(PageOf(seq(|ids|, k requires 0 <= k < |ids| => remote.item(ids[k]).story),
                                     pageNumber, pageSize, title))
  {
    var ids := remote.newStories.ids;
    forall i, j | 0 <= i < j < |ids|
      ensures KeyOf(ids[i]) != KeyOf(ids[j])
    {
      KeyOfInjective(ids[i], ids[j]);
    }
    ColdCacheFetchesEveryId(cache, remote.item, KeyOf, ids);
    var stories := ResolveAll(cache, remote.item, KeyOf, ids).outcome.value;
    assert stories == seq(|ids|, k requires 0 <= k < |ids| => remote.item(ids[k]).story);
  }

  // ---------------------------------------------------------------------
  // Helpers

  /** Regrouping the fetch log after one more resolution; stated as a lemma
      so the loop of `ResolveStories` need not reprove it from the sequence axioms. */
  lemma AppendAssociative<T>(a: seq<T>, b: seq<T>, c: seq<T>)
    ensures (a + b) + c == a + (b + c)
  {
  }

  // ---------------------------------------------------------------------
  // The service object

  /** The service with its cache. The remote API is fixed at construction;
      `fetchLog` records, in order, every id whose item was requested from
      the remote. */
  class HackerNewsService {
    const remote: Remote
    var cache: Cache
    ghost var fetchLog: seq<int>

    constructor (remote: Remote, cache: Cache)
      ensures this.remote == remote && this.cache == cache && fetchLog == []
    {
      this.remote := remote;
      this.cache := cache;
      fetchLog := [];
    }

    /** GetStoryAsync (lines 66-87). */
    method GetStory(id: int) returns (r: Result<Story>)
      modifies this
      ensures var step := ResolveOne(old(cache), remote.item, KeyOf, id);
              r == step.outcome && cache == step.cache && fetchLog == old(fetchLog) + step.fetched
    {
      var key := KeyOf(id);
      match LookupStory(cache, key)
      case Hit(story) =>
        r := Ok(story);
      case HitNull =>
        r := Err(StoryNotFound(id));
      case Miss =>
        fetchLog := fetchLog + [id];
        match remote.item(id)
        case ItemHttpFailure =>
          r := Err(ItemHttpError(id));
        case ItemUnparsable =>
          r := Err(ItemParseError(id));
        case ItemNull =>
          r := Err(DeserializedNull(id));
        case ItemOk(story) =>
          cache := cache[key := StoryValue(story)];
          r := Ok(story);
    }

    /** Lines 42-43: resolve every id, in list order, keeping the first failure. */
    method ResolveStories(ids: seq<int>) returns (resolved: Result<seq<Story>>)
      modifies this
      ensures var res := ResolveAll(old(cache), remote.item, KeyOf, ids);
              resolved == res.outcome && cache == res.cache && fetchLog == old(fetchLog) + res.fetched
    {
      ghost var cache0, log0 := cache, fetchLog;
      resolved := Ok([]);
      var i := 0;
      while i < |ids|
        invariant 0 <= i <= |ids|
        invariant var done := ResolveAll(cache0, remote.item, KeyOf, ids[..i]);
                  resolved == done.outcome && cache == done.cache && fetchLog == log0 + done.fetched
      {
        ghost var done := ResolveAll(cache0, remote.item, KeyOf, ids[..i]);
        ResolveAllExtend(cache0, remote.item, KeyOf, ids, i);
        var story := GetStory(ids[i]);
        ghost var step := ResolveOne(done.cache, remote.item, KeyOf, ids[i]);
        AppendAssociative(log0, done.fetched, step.fetched);
        resolved := Join(resolved, story);
        i := i + 1;
      }
      assert ids[..i] == ids;
    }

    /** GetNewestStoriesAsync (lines 27-64), with the resolutions of
        `Task.WhenAll` performed one after the other in list order. */
    method GetNewestStories(pageNumber: int32, pageSize: int32, title: Option<string>)
      returns (r: Result<PagedStoriesResponse>)
      modifies this
      ensures var o := NewestStories(old(cache), remote, pageNumber, pageSize, title);
              r == o.result && cache == o.cache && fetchLog == old(fetchLog) + o.fetched
    {
      match remote.newStories
      case IdsHttpFailure =>
        r := Err(ListHttpError);
      case IdsUnparsable =>
        r := Err(ListParseError);
      case IdsNull =>
        r := Ok(PagedStoriesResponse(0, []));
      case IdsOk(ids) =>
        var resolved := ResolveStories(ids);
        match resolved
        case Err(e) =>
          r := Err(e);
        case Ok(stories) =>
          var filtered := FilterByTitle(stories, title);
          r := Ok(PagedStoriesResponse(|filtered|, Paginate(filtered, pageNumber, pageSize)));
    }
  }
}
