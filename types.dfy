/** The records, filters, constants and endpoint responses the pipeline works on. */
module Types {
  import opened Wrappers

  /** Page size asked of the search endpoint. */
  const MAX_RESULTS_PER_PAGE: nat := 50
  /** Number of search pages a deep search reads at most (4 * 50 = 200 videos). */
  const MAX_PAGES_DEEP_SEARCH: nat := 4
  /** Largest number of ids one statistics request carries. */
  const ID_BATCH_SIZE: nat := 50

  datatype Order = Relevance | Date | ViewCount | Rating

  /** The value of the `order` request parameter. */
  function OrderName(o: Order): string
  {
    match o
    case Relevance => "relevance"
    case Date => "date"
    case ViewCount => "viewCount"
    case Rating => "rating"
  }

  datatype VideoDuration = AnyDuration | Short | Medium | Long

  /** The value of the `videoDuration` request parameter. */
  function DurationName(d: VideoDuration): string
  {
    match d
    case AnyDuration => "any"
    case Short => "short"
    case Medium => "medium"
    case Long => "long"
  }

  /** Search filters; `publishedAfter` is "" for "any time", `channelId` scopes to one channel. */
  datatype SearchFilters = SearchFilters(
    order: Order,
    videoDuration: VideoDuration,
    publishedAfter: string,
    channelId: Option<string>)

  /** A channel filter is in force when it is present and not the empty string. */
  predicate HasChannelFilter(f: SearchFilters)
  {
    f.channelId.Some? && f.channelId.value != ""
  }

  /** A number produced by `parseInt`: a non-negative integer, or NaN. */
  datatype JsCount = NaN | Count(n: nat)

  /** A viral score: a real number, or NaN. */
  datatype JsScore = ScoreNaN | Score(r: real)

  /** A video as the search step knows it: no statistics yet. */
  datatype PartialVideo = PartialVideo(
    id: string,
    title: string,
    thumbnail: Option<string>,
    publishedAt: string,
    channelId: string,
    channelTitle: string,
    videoUrl: string)

  /** A fully enriched video; `subscriberCount` is None when hidden or unknown. */
  datatype YouTubeVideo = YouTubeVideo(
    id: string,
    title: string,
    thumbnail: Option<string>,
    publishedAt: string,
    channelId: string,
    channelTitle: string,
    viewCount: JsCount,
    likeCount: JsCount,
    commentCount: nat,
    subscriberCount: Option<JsCount>,
    viralScore: JsScore,
    duration: string,
    videoUrl: string)

  /** The stage a progress report belongs to. */
  datatype Phase = FetchingPage(page: nat) | FetchingVideoStats | FetchingChannelStats | Finalizing

  datatype FetchProgress = FetchProgress(current: nat, total: nat, status: Phase)

  /** The names of the query parameters the pipeline sends. */
  datatype ParamName = Part | MaxResults | Q | Type | Key | OrderParam | VideoDurationParam
                     | PublishedAfter | ChannelIdParam | PageToken | Id

  /** The name as it appears in the URL. */
  function WireName(n: ParamName): string
  {
    match n
    case Part => "part"
    case MaxResults => "maxResults"
    case Q => "q"
    case Type => "type"
    case Key => "key"
    case OrderParam => "order"
    case VideoDurationParam => "videoDuration"
    case PublishedAfter => "publishedAfter"
    case ChannelIdParam => "channelId"
    case PageToken => "pageToken"
    case Id => "id"
  }

  /** Query parameters of one request, in the order they are appended. */
  type Params = seq<(ParamName, string)>

  /** The value of the first parameter called `name`, if any (`searchParams.get(name)`). */
  function Lookup(p: Params, name: ParamName): Option<string>
  {
    if p == [] then None
    else if p[0].0 == name then Some(p[0].1)
    else Lookup(p[1..], name)
  }

  /** Looking a name up in two parameter lists one after the other. */
  lemma {:induction false} LookupAppend(a: Params, b: Params, name: ParamName)
    ensures Lookup(a + b, name) == if Lookup(a, name).Some? then Lookup(a, name) else Lookup(b, name)
  {
    if a != [] {
      assert (a + b)[1..] == a[1..] + b;
      LookupAppend(a[1..], b, name);
    } else {
      assert a + b == b;
    }
  }

  /** `searchParams.append(name, value)`. */
  function Append(p: Params, name: ParamName, value: string): Params
  {
    p + [(name, value)]
  }

  /** An `append` guarded by a condition. */
  function AppendIf(p: Params, cond: bool, name: ParamName, value: string): Params
  {
    if cond then Append(p, name, value) else p
  }

  /** An appended parameter is found only when no earlier one has the same name. */
  lemma LookupAfterAppend(p: Params, cond: bool, name: ParamName, value: string, x: ParamName)
    ensures Lookup(AppendIf(p, cond, name, value), x)
      == if Lookup(p, x).Some? || !cond || x != name then Lookup(p, x) else Some(value)
    ensures Lookup(Append(p, name, value), x)
      == if Lookup(p, x).Some? || x != name then Lookup(p, x) else Some(value)
  {
    LookupAppend(p, [(name, value)], x);
  }

  // Responses of the endpoints, as far as the pipeline reads them.

  /** One item of a video search page. */
  datatype VideoSearchItem = VideoSearchItem(
    videoId: string,
    title: string,
    highUrl: Option<string>,
    mediumUrl: Option<string>,
    publishedAt: string,
    channelId: string,
    channelTitle: string)

  /** The body of a successful search response. */
  datatype SearchResult = SearchResult(items: Option<seq<VideoSearchItem>>, nextPageToken: Option<string>)

  /** A search response: success, or failure with the upstream `error.message` if any. */
  datatype SearchResponse = SearchOk(body: SearchResult) | SearchFailed(message: Option<string>)

  /** One item of a channel search. */
  datatype ChannelSearchItem = ChannelSearchItem(channelId: string, title: string, defaultUrl: Option<string>)

  /** One item of the video statistics endpoint. */
  datatype VideoDetailsItem = VideoDetailsItem(
    id: string,
    viewCount: Option<string>,
    likeCount: Option<string>,
    duration: string)

  /** One item of the channel statistics endpoint. */
  datatype ChannelDetailsItem = ChannelDetailsItem(
    id: string,
    subscriberCount: Option<string>,
    hiddenSubscriberCount: bool)

  /** The remote endpoints: each answers a request, given by its parameters, with a body;
      `items` is None when the body has no item list. */
  datatype Api = Api(
    search: Params -> SearchResponse,
    channelSearch: Params -> Option<seq<ChannelSearchItem>>,
    videos: Params -> Option<seq<VideoDetailsItem>>,
    channels: Params -> Option<seq<ChannelDetailsItem>>)
}
