/** Resolving story ids to stories through the cache (GetStoryAsync, lines
    66-87), and resolving a whole id list the way `Task.WhenAll` over those
    calls does (lines 42-43): every id is resolved, in list order, and the
    first failure in list order fails the whole list.

    `keyOf` is the cache key of a story id: `string.Format` of the configured
    `StoryCacheKey` template with the id. */
module Resolution {
  import opened Models

  /** What `IMemoryCache.TryGetValue<Story>` reports for a key. */
  datatype Lookup = Hit(story: Story) | HitNull | Miss

  /** A Story entry is a hit; a null entry is a hit that yields null; an
      absent entry, or an entry of another type, is a miss. */
  function LookupStory(cache: Cache, key: string): Lookup {
    if key !in cache then Miss
    else match cache[key]
      case StoryValue(s) => Hit(s)
      case NullValue => HitNull
      case OtherValue => Miss
  }

  /** The result of resolving one id, the cache afterwards, and the ids
      fetched from the remote item endpoint (at most this one). */
  datatype Step = Step(outcome: Result<Story>, cache: Cache, fetched: seq<int>)

  /** GetStoryAsync: look the key up; on a miss fetch the item, fail on a
      non-success status, an unparsable payload or a null story, and
      otherwise store the story under its key; a null cache entry fails. */
  function ResolveOne(cache: Cache, item: int -> ItemFetch, keyOf: int -> string, id: int): Step
  {
    var key := keyOf(id);
    match LookupStory(cache, key)
    case Hit(s) => Step(Ok(s), cache, [])
    case HitNull => Step(Err(StoryNotFound(id)), cache, [])
    case Miss =>
      match item(id)
      case ItemOk(s) => Step(Ok(s), cache[key := StoryValue(s)], [id])
      case ItemNull => Step(Err(DeserializedNull(id)), cache, [id])
      case ItemHttpFailure => Step(Err(ItemHttpError(id)), cache, [id])
      case ItemUnparsable => Step(Err(ItemParseError(id)), cache, [id])
  }

  /** Cache-aside for one id: a hit is served from the cache with no remote
      call; a miss calls the remote for this id and, when the story arrives,
      stores it under the id's key; every failure leaves the cache as it was. */
  lemma ResolveOneCacheAside(cache: Cache, item: int -> ItemFetch, keyOf: int -> string, id: int)
    ensures var r := ResolveOne(cache, item, keyOf, id);
            LookupStory(cache, keyOf(id)).Hit? ==>
              r == Step(Ok(LookupStory(cache, keyOf(id)).story), cache, [])
    ensures var r := ResolveOne(cache, item, keyOf, id);
            r.fetched == if LookupStory(cache, keyOf(id)).Miss? then [id] else []
    ensures var r := ResolveOne(cache, item, keyOf, id);
            r.outcome.Ok? ==>
              && LookupStory(r.cache, keyOf(id)) == Hit(r.outcome.value)
              && (LookupStory(cache, keyOf(id)) == Hit(r.outcome.value) ||
                  (LookupStory(cache, keyOf(id)).Miss? && item(id) == ItemOk(r.outcome.value)))
    ensures var r := ResolveOne(cache, item, keyOf, id);
            r.outcome.Err? ==> r.cache == cache
  {
  }

  /** The ways one resolution fails: a null cache entry, or on a miss a
      failed status, an unparsable payload or a null story. */
  lemma ResolveOneFailures(cache: Cache, item: int -> ItemFetch, keyOf: int -> string, id: int)
    ensures var r := ResolveOne(cache, item, keyOf, id);
            r.outcome.Err? <==>
              LookupStory(cache, keyOf(id)).HitNull? ||
              (LookupStory(cache, keyOf(id)).Miss? && !item(id).ItemOk?)
    ensures var r := ResolveOne(cache, item, keyOf, id);
            && (LookupStory(cache, keyOf(id)).HitNull? ==> r.outcome == Err(StoryNotFound(id)))
            && (LookupStory(cache, keyOf(id)).Miss? && item(id).ItemNull? ==>
                  r.outcome == Err(DeserializedNull(id)))
            && (LookupStory(cache, keyOf(id)).Miss? && item(id).ItemHttpFailure? ==>
                  r.outcome == Err(ItemHttpError(id)))
            && (LookupStory(cache, keyOf(id)).Miss? && item(id).ItemUnparsable? ==>
                  r.outcome == Err(ItemParseError(id)))
  {
  }

  /** Resolving one id changes no cache key other than that id's. */
  lemma ResolveOneFrame(cache: Cache, item: int -> ItemFetch, keyOf: int -> string, id: int, key: string)
    requires key != keyOf(id)
    ensures var r := ResolveOne(cache, item, keyOf, id);
            (key in r.cache <==> key in cache) && (key in cache ==> r.cache[key] == cache[key])
  {
  }

  /** Resolving one step keeps every hit as it was. */
  lemma ResolveOneKeepsHits(cache: Cache, item: int -> ItemFetch, keyOf: int -> string, id: int, key: string)
    requires LookupStory(cache, key).Hit?
    ensures LookupStory(ResolveOne(cache, item, keyOf, id).cache, key) == LookupStory(cache, key)
  {
  }

  /** The outcome of all resolutions, the cache afterwards and the ids
      fetched from the remote, in order. */
  datatype Resolution = Resolution(outcome: Result<seq<Story>>, cache: Cache, fetched: seq<int>)

  /** Adds one more resolution: the first failure is kept, a later one is not. */
  function Join(all: Result<seq<Story>>, next: Result<Story>): Result<seq<Story>> {
    match all
    case Err(_) => all
    case Ok(stories) =>
      match next
      case Err(e) => Err(e)
      case Ok(s) => Ok(stories + [s])
  }

  /** Lines 42-43: every id resolved in list order, each against the cache
      the earlier ones left. */
  function ResolveAll(cache: Cache, item: int -> ItemFetch, keyOf: int -> string, ids: seq<int>): (r: Resolution)
    ensures r.outcome.Ok? ==> |r.outcome.value| == |ids|
    ensures |r.fetched| <= |ids|
    decreases |ids|
  {
    if ids == [] then Resolution(Ok([]), cache, [])
    else
      var prev := ResolveAll(cache, item, keyOf, ids[..|ids| - 1]);
      var step := ResolveOne(prev.cache, item, keyOf, ids[|ids| - 1]);
      Resolution(Join(prev.outcome, step.outcome), step.cache, prev.fetched + step.fetched)
  }

  /** Resolving one more id of the list: the prefix's resolution followed by
      that id's against the cache the prefix left. */
  lemma ResolveAllExtend(cache: Cache, item: int -> ItemFetch, keyOf: int -> string, ids: seq<int>, i: nat)
    requires i < |ids|
    ensures var prev := ResolveAll(cache, item, keyOf, ids[..i]);
            var step := ResolveOne(prev.cache, item, keyOf, ids[i]);
            ResolveAll(cache, item, keyOf, ids[..i + 1]) ==
              Resolution(Join(prev.outcome, step.outcome), step.cache, prev.fetched + step.fetched)
  {
    assert ids[..i + 1][..i] == ids[..i];
  }

  /** Only ids of the list are ever fetched. */
  lemma {:induction false} FetchedAreListed(cache: Cache, item: int -> ItemFetch, keyOf: int -> string, ids: seq<int>)
    ensures forall x :: x in ResolveAll(cache, item, keyOf, ids).fetched ==> x in ids
    decreases |ids|
  {
    if ids != [] {
      var n := |ids| - 1;
      FetchedAreListed(cache, item, keyOf, ids[..n]);
      assert forall x :: x in ids[..n] ==> x in ids;
      assert ids[n] in ids;
    }
  }

  /** The resolution of `ids[k]`, against the cache the ids before it left. */
  function StepAt(cache: Cache, item: int -> ItemFetch, keyOf: int -> string, ids: seq<int>, k: nat): Step
    requires k < |ids|
  {
    ResolveOne(ResolveAll(cache, item, keyOf, ids[..k]).cache, item, keyOf, ids[k])
  }

  lemma StepAtPrefix(cache: Cache, item: int -> ItemFetch, keyOf: int -> string, ids: seq<int>, k: nat)
    requires k < |ids| - 1
    ensures StepAt(cache, item, keyOf, ids[..|ids| - 1], k) == StepAt(cache, item, keyOf, ids, k)
  {
    assert ids[..|ids| - 1][..k] == ids[..k];
  }

  /** No partial results: the list resolves exactly when every id does, and
      then the stories are the ids' stories, in list order. */
  lemma {:induction false} ResolveAllSucceedsIff(cache: Cache, item: int -> ItemFetch, keyOf: int -> string, ids: seq<int>)
    ensures ResolveAll(cache, item, keyOf, ids).outcome.Ok? <==>
            forall k :: 0 <= k < |ids| ==> StepAt(cache, item, keyOf, ids, k).outcome.Ok?
    ensures ResolveAll(cache, item, keyOf, ids).outcome.Ok? ==>
            forall k :: 0 <= k < |ids| ==>
              ResolveAll(cache, item, keyOf, ids).outcome.value[k] == StepAt(cache, item, keyOf, ids, k).outcome.value
    decreases |ids|
  {
    if ids != [] {
      var n := |ids| - 1;
      var prev := ResolveAll(cache, item, keyOf, ids[..n]);
      var step := StepAt(cache, item, keyOf, ids, n);
      var r := ResolveAll(cache, item, keyOf, ids);
      assert r == Resolution(Join(prev.outcome, step.outcome), step.cache, prev.fetched + step.fetched);
      ResolveAllSucceedsIff(cache, item, keyOf, ids[..n]);
      forall k | 0 <= k < n {
        StepAtPrefix(cache, item, keyOf, ids, k);
      }
      if r.outcome.Ok? {
        assert prev.outcome.Ok? && step.outcome.Ok?;
        assert r.outcome.value == prev.outcome.value + [step.outcome.value];
      } else if prev.outcome.Err? {
        var k :| 0 <= k < n && !StepAt(cache, item, keyOf, ids[..n], k).outcome.Ok?;
        assert !StepAt(cache, item, keyOf, ids, k).outcome.Ok?;
      } else {
        assert !step.outcome.Ok?;
      }
    }
  }

  /** A failed list fails with the error of the first id, in list order,
      whose resolution failed. */
  lemma {:induction false} ResolveAllFirstFailure(cache: Cache, item: int -> ItemFetch, keyOf: int -> string, ids: seq<int>)
    requires ResolveAll(cache, item, keyOf, ids).outcome.Err?
    ensures exists k :: 0 <= k < |ids| &&
              StepAt(cache, item, keyOf, ids, k).outcome == Err(ResolveAll(cache, item, keyOf, ids).outcome.error) &&
              forall j :: 0 <= j < k ==> StepAt(cache, item, keyOf, ids, j).outcome.Ok?
    decreases |ids|
  {
    var n := |ids| - 1;
    var prev := ResolveAll(cache, item, keyOf, ids[..n]);
    forall k | 0 <= k < n {
      StepAtPrefix(cache, item, keyOf, ids, k);
    }
    if prev.outcome.Err? {
      ResolveAllFirstFailure(cache, item, keyOf, ids[..n]);
      var k :| 0 <= k < n &&
               StepAt(cache, item, keyOf, ids[..n], k).outcome == Err(prev.outcome.error) &&
               forall j :: 0 <= j < k ==> StepAt(cache, item, keyOf, ids[..n], j).outcome.Ok?;
      assert StepAt(cache, item, keyOf, ids, k).outcome == Err(ResolveAll(cache, item, keyOf, ids).outcome.error);
    } else {
      ResolveAllSucceedsIff(cache, item, keyOf, ids[..n]);
      assert ids[..n] == ids[..n][..n];
      assert StepAt(cache, item, keyOf, ids, n).outcome == Err(ResolveAll(cache, item, keyOf, ids).outcome.error);
    }
  }

  /** Resolving a list keeps every hit as it was. */
  lemma {:induction false} ResolveAllKeepsHits(cache: Cache, item: int -> ItemFetch, keyOf: int -> string, ids: seq<int>, key: string)
    requires LookupStory(cache, key).Hit?
    ensures LookupStory(ResolveAll(cache, item, keyOf, ids).cache, key) == LookupStory(cache, key)
    decreases |ids|
  {
    if ids != [] {
      var n := |ids| - 1;
      ResolveAllKeepsHits(cache, item, keyOf, ids[..n], key);
      ResolveOneKeepsHits(ResolveAll(cache, item, keyOf, ids[..n]).cache, item, keyOf, ids[n], key);
    }
  }

  /** An id whose story is already cached is never fetched from the remote. */
  lemma {:induction false} CachedIdNeverFetched(cache: Cache, item: int -> ItemFetch, keyOf: int -> string, ids: seq<int>, id: int)
    requires LookupStory(cache, keyOf(id)).Hit?
    ensures id !in ResolveAll(cache, item, keyOf, ids).fetched
    decreases |ids|
  {
    if ids != [] {
      var n := |ids| - 1;
      CachedIdNeverFetched(cache, item, keyOf, ids[..n], id);
      if ids[n] == id {
        ResolveAllKeepsHits(cache, item, keyOf, ids[..n], keyOf(id));
      }
    }
  }

  /** When every id is cached, no remote call is made, the cache is unchanged
      and the stories are the cached ones, in list order. */
  lemma {:induction false} AllCachedNoFetch(cache: Cache, item: int -> ItemFetch, keyOf: int -> string, ids: seq<int>)
    requires forall id :: id in ids ==> LookupStory(cache, keyOf(id)).Hit?
    ensures var r := ResolveAll(cache, item, keyOf, ids);
            && r.outcome.Ok?
            && r.cache == cache
            && r.fetched == []
            && forall k :: 0 <= k < |ids| ==> LookupStory(cache, keyOf(ids[k])) == Hit(r.outcome.value[k])
    decreases |ids|
  {
    if ids != [] {
      var n := |ids| - 1;
      assert forall id :: id in ids[..n] ==> id in ids;
      AllCachedNoFetch(cache, item, keyOf, ids[..n]);
      var prev := ResolveAll(cache, item, keyOf, ids[..n]);
      assert ids[n] in ids;
      var step := ResolveOne(prev.cache, item, keyOf, ids[n]);
      assert step == Step(Ok(LookupStory(cache, keyOf(ids[n])).story), cache, []);
      var r := ResolveAll(cache, item, keyOf, ids);
      assert r == Resolution(Join(prev.outcome, step.outcome), step.cache, prev.fetched + step.fetched);
      assert r.outcome.value == prev.outcome.value + [step.outcome.value];
      forall k | 0 <= k < |ids|
        ensures LookupStory(cache, keyOf(ids[k])) == Hit(r.outcome.value[k])
      {
        if k < n {
          assert ids[..n][k] == ids[k];
        }
      }
    }
  }

  /** After a successful resolution, every id's story is cached under its key. */
  lemma {:induction false} ResolvedStoriesAreCached(cache: Cache, item: int -> ItemFetch, keyOf: int -> string, ids: seq<int>)
    requires ResolveAll(cache, item, keyOf, ids).outcome.Ok?
    ensures var r := ResolveAll(cache, item, keyOf, ids);
            forall k :: 0 <= k < |ids| ==> LookupStory(r.cache, keyOf(ids[k])) == Hit(r.outcome.value[k])
    decreases |ids|
  {
    if ids != [] {
      var n := |ids| - 1;
      var prev := ResolveAll(cache, item, keyOf, ids[..n]);
      ResolvedStoriesAreCached(cache, item, keyOf, ids[..n]);
      forall k | 0 <= k < n
        ensures LookupStory(ResolveAll(cache, item, keyOf, ids).cache, keyOf(ids[k])) ==
                Hit(ResolveAll(cache, item, keyOf, ids).outcome.value[k])
      {
        assert ids[..n][k] == ids[k];
        ResolveOneKeepsHits(prev.cache, item, keyOf, ids[n], keyOf(ids[k]));
      }
    }
  }

  /** Resolving the same list again right after a successful resolution is
      served entirely from the cache: the same stories, in the same order,
      with no remote call and no change to the cache. */
  lemma RepeatResolutionServedFromCache(cache: Cache, item: int -> ItemFetch, keyOf: int -> string, ids: seq<int>)
    requires ResolveAll(cache, item, keyOf, ids).outcome.Ok?
    ensures var first := ResolveAll(cache, item, keyOf, ids);
            ResolveAll(first.cache, item, keyOf, ids) == Resolution(first.outcome, first.cache, [])
  {
    var first := ResolveAll(cache, item, keyOf, ids);
    ResolvedStoriesAreCached(cache, item, keyOf, ids);
    forall id | id in ids
      ensures LookupStory(first.cache, keyOf(id)).Hit?
    {
      var k :| 0 <= k < |ids| && ids[k] == id;
    }
    AllCachedNoFetch(first.cache, item, keyOf, ids);
    var second := ResolveAll(first.cache, item, keyOf, ids);
    assert second.outcome.value == first.outcome.value;
  }

  /** No two ids in the list share a cache key (so no id occurs twice). */
  ghost predicate DistinctKeys(keyOf: int -> string, ids: seq<int>) {
    forall i, j :: 0 <= i < j < |ids| ==> keyOf(ids[i]) != keyOf(ids[j])
  }

  /** A key that is absent and is not the key of any id in the list stays absent. */
  lemma {:induction false} UnrelatedKeyStaysAbsent(cache: Cache, item: int -> ItemFetch, keyOf: int -> string, ids: seq<int>, key: string)
    requires key !in cache
    requires forall k :: 0 <= k < |ids| ==> keyOf(ids[k]) != key
    ensures key !in ResolveAll(cache, item, keyOf, ids).cache
    decreases |ids|
  {
    if ids != [] {
      var n := |ids| - 1;
      UnrelatedKeyStaysAbsent(cache, item, keyOf, ids[..n], key);
      ResolveOneFrame(ResolveAll(cache, item, keyOf, ids[..n]).cache, item, keyOf, ids[n], key);
    }
  }

  /** On a cold cache with distinct keys, the `k`-th resolution misses, fetches
      `ids[k]` and returns the remote's story. */
  lemma ColdStep(cache: Cache, item: int -> ItemFetch, keyOf: int -> string, ids: seq<int>, k: nat)
    requires k < |ids|
    requires keyOf(ids[k]) !in cache && item(ids[k]).ItemOk?
    requires forall j :: 0 <= j < k ==> keyOf(ids[j]) != keyOf(ids[k])
    ensures StepAt(cache, item, keyOf, ids, k).outcome == Ok(item(ids[k]).story)
    ensures StepAt(cache, item, keyOf, ids, k).fetched == [ids[k]]
  {
    assert forall j :: 0 <= j < k ==> ids[..k][j] == ids[j];
    UnrelatedKeyStaysAbsent(cache, item, keyOf, ids[..k], keyOf(ids[k]));
  }

  /** With none of the ids' keys in the cache, no key shared by two ids and
      every item fetch succeeding, every id is fetched once, in list order,
      and the stories are the remote's, in list order. */
  lemma {:induction false} ColdCacheFetchesEveryId(cache: Cache, item: int -> ItemFetch, keyOf: int -> string, ids: seq<int>)
    requires forall k :: 0 <= k < |ids| ==> keyOf(ids[k]) !in cache && item(ids[k]).ItemOk?
    requires DistinctKeys(keyOf, ids)
    ensures var r := ResolveAll(cache, item, keyOf, ids);
            && r.outcome.Ok?
            && r.fetched == ids
            && forall k :: 0 <= k < |ids| ==> item(ids[k]) == ItemOk(r.outcome.value[k])
  {
    forall k | 0 <= k < |ids|
      ensures StepAt(cache, item, keyOf, ids, k).outcome == Ok(item(ids[k]).story)
      ensures StepAt(cache, item, keyOf, ids, k).fetched == [ids[k]]
    {
      ColdStep(cache, item, keyOf, ids, k);
    }
    ResolveAllSucceedsIff(cache, item, keyOf, ids);
    FetchedOnePerStep(cache, item, keyOf, ids);
  }

  lemma FetchedOfLast(cache: Cache, item: int -> ItemFetch, keyOf: int -> string, ids: seq<int>)
    requires ids != []
    ensures ResolveAll(cache, item, keyOf, ids).fetched ==
            ResolveAll(cache, item, keyOf, ids[..|ids| - 1]).fetched + StepAt(cache, item, keyOf, ids, |ids| - 1).fetched
  {
  }

  /** When every resolution fetches its own id, the fetches are the list. */
  lemma {:induction false} FetchedOnePerStep(cache: Cache, item: int -> ItemFetch, keyOf: int -> string, ids: seq<int>)
    requires forall k :: 0 <= k < |ids| ==> StepAt(cache, item, keyOf, ids, k).fetched == [ids[k]]
    ensures ResolveAll(cache, item, keyOf, ids).fetched == ids
    decreases |ids|
  {
    if ids != [] {
      var n := |ids| - 1;
      forall k | 0 <= k < n
        ensures StepAt(cache, item, keyOf, ids[..n], k).fetched == [ids[..n][k]]
      {
        StepAtPrefix(cache, item, keyOf, ids, k);
      }
      FetchedOnePerStep(cache, item, keyOf, ids[..n]);
      FetchedOfLast(cache, item, keyOf, ids);
      assert ids == ids[..n] + [ids[n]];
    }
  }
}
