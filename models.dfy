/** The values the story service works with: the story item and the paged
    response of the API, the exceptions that escape a request, and what the
    remote calls yield once their payloads have been deserialised. */
module Models {

  datatype Option<+T> = None | Some(value: T)

  /** A story item: `Title` is declared `required`, `Url` may be null. */
  datatype Story = Story(id: int, title: string, url: Option<string>)

  /** What GetNewestStoriesAsync returns: the number of stories that pass the
      title filter, and the requested page of them. */
  datatype PagedStoriesResponse = PagedStoriesResponse(totalStories: nat, stories: seq<Story>)

  /** The exceptions that escape GetNewestStoriesAsync. */
  datatype Error =
    | ListHttpError              // non-success status for newstories.json
    | ListParseError             // the id list payload is not a JSON array of ints
    | ItemHttpError(id: int)     // non-success status for item/{id}.json
    | ItemParseError(id: int)    // the item payload is not a JSON story
    | DeserializedNull(id: int)  // the item payload deserialised to null
    | StoryNotFound(id: int)     // the cache held null under the story's key

  datatype Result<+T> = Ok(value: T) | Err(error: Error)

  /** The `newstories.json` call, transported and deserialised as `int[]`. */
  datatype ListFetch = IdsOk(ids: seq<int>) | IdsNull | IdsHttpFailure | IdsUnparsable

  /** One `item/{id}.json` call, transported and deserialised as a Story. */
  datatype ItemFetch = ItemOk(story: Story) | ItemNull | ItemHttpFailure | ItemUnparsable

  /** The remote API as the service sees it: the id list of the current
      request, and the item endpoint as a total function of the id. */
  datatype Remote = Remote(newStories: ListFetch, item: int -> ItemFetch)

  /** A value in the in-memory cache: a Story, a null, or an object of some
      other type stored by other code under the same key. */
  datatype CacheValue = StoryValue(story: Story) | NullValue | OtherValue

  type Cache = map<string, CacheValue>
}
