/** The deep search: up to four pages of video search results, followed by continuation tokens. */
module SearchCollector {
  import opened Wrappers
  import opened Types
  import opened Numbers
  import opened Seqs

  const WATCH_URL_PREFIX: string := "https://www.youtube.com/watch?v="
  const SEARCH_FAILED_MESSAGE: string := "Failed to fetch search results"

  /** What one pipeline run searches for; `isoDate` stands for `new Date(s).toISOString()`. */
  datatype SearchInput = SearchInput(
    apiKey: string,
    query: string,
    filters: SearchFilters,
    isoDate: string -> string)

  /** Decimal text of the page size, the value of `maxResults`. */
  const MAX_RESULTS_TEXT: string := "50"

  lemma MaxResultsText()
    ensures MAX_RESULTS_TEXT == NatToDecimal(MAX_RESULTS_PER_PAGE)
  {
  }

  /** The parameters appended before the filters: part, page size, query, kind, key, order. */
  function HeadParams(input: SearchInput): Params
  {
    var p := Append(Append([], Part, "snippet"), MaxResults, MAX_RESULTS_TEXT);
    var p := AppendIf(p, input.query != "", Q, input.query);
    Append(Append(Append(p, Type, "video"), Key, input.apiKey), OrderParam, OrderName(input.filters.order))
  }

  /** The parameters of the search request for one page, given the previous page's token. */
  function SearchParams(input: SearchInput, pageToken: string): Params
  {
    var f := input.filters;
    var p := AppendIf(HeadParams(input), f.videoDuration != AnyDuration, VideoDurationParam, DurationName(f.videoDuration));
    var p := AppendIf(p, f.publishedAfter != "", PublishedAfter, input.isoDate(f.publishedAfter));
    var p := AppendIf(p, HasChannelFilter(f), ChannelIdParam, if f.channelId.Some? then f.channelId.value else "");
    AppendIf(p, pageToken != "", PageToken, pageToken)
  }

  /** The value a page request carries for each parameter name, read as a table. */
  function ExpectedParam(input: SearchInput, pageToken: string, x: ParamName): Option<string>
  {
    var f := input.filters;
    match x
    case Part => Some("snippet")
    case MaxResults => Some(MAX_RESULTS_TEXT)
    case Q => if input.query != "" then Some(input.query) else None
    case Type => Some("video")
    case Key => Some(input.apiKey)
    case OrderParam => Some(OrderName(f.order))
    case VideoDurationParam => if f.videoDuration != AnyDuration then Some(DurationName(f.videoDuration)) else None
    case PublishedAfter => if f.publishedAfter != "" then Some(input.isoDate(f.publishedAfter)) else None
    case ChannelIdParam => if HasChannelFilter(f) then f.channelId else None
    case PageToken => if pageToken != "" then Some(pageToken) else None
    case Id => None
  }

  /** The names the filters and the token add are not among the first parameters. */
  predicate IsFilterParam(x: ParamName)
  {
    x == VideoDurationParam || x == PublishedAfter || x == ChannelIdParam || x == PageToken || x == Id
  }

  lemma HeadParamsLookup(input: SearchInput, x: ParamName)
    ensures Lookup(HeadParams(input), x) == if IsFilterParam(x) then None else ExpectedParam(input, "", x)
  {
    var p1 := Append([], Part, "snippet");
    var p2 := Append(p1, MaxResults, MAX_RESULTS_TEXT);
    var p3 := AppendIf(p2, input.query != "", Q, input.query);
    var p4 := Append(p3, Type, "video");
    var p5 := Append(p4, Key, input.apiKey);
    assert HeadParams(input) == Append(p5, OrderParam, OrderName(input.filters.order));
    LookupAfterAppend([], true, Part, "snippet", x);
    LookupAfterAppend(p1, true, MaxResults, MAX_RESULTS_TEXT, x);
    LookupAfterAppend(p2, input.query != "", Q, input.query, x);
    LookupAfterAppend(p3, true, Type, "video", x);
    LookupAfterAppend(p4, true, Key, input.apiKey, x);
    LookupAfterAppend(p5, true, OrderParam, OrderName(input.filters.order), x);
  }

  /** Every parameter of a page request has the value the table gives it. */
  lemma SearchParamsLookup(input: SearchInput, pageToken: string, x: ParamName)
    ensures Lookup(SearchParams(input, pageToken), x) == ExpectedParam(input, pageToken, x)
  {
    var f := input.filters;
    var p6 := HeadParams(input);
    var p7 := AppendIf(p6, f.videoDuration != AnyDuration, VideoDurationParam, DurationName(f.videoDuration));
    var p8 := AppendIf(p7, f.publishedAfter != "", PublishedAfter, input.isoDate(f.publishedAfter));
    var channel := if f.channelId.Some? then f.channelId.value else "";
    var p9 := AppendIf(p8, HasChannelFilter(f), ChannelIdParam, channel);
    assert SearchParams(input, pageToken) == AppendIf(p9, pageToken != "", PageToken, pageToken);
    HeadParamsLookup(input, x);
    LookupAfterAppend(p6, f.videoDuration != AnyDuration, VideoDurationParam, DurationName(f.videoDuration), x);
    LookupAfterAppend(p7, f.publishedAfter != "", PublishedAfter, input.isoDate(f.publishedAfter), x);
    LookupAfterAppend(p8, HasChannelFilter(f), ChannelIdParam, channel, x);
    LookupAfterAppend(p9, pageToken != "", PageToken, pageToken, x);
  }

  /** Which optional parameters a page request carries: `q`, `videoDuration`, `publishedAfter`,
      `channelId` and `pageToken` each exactly when its condition holds. */
  lemma SearchParamsOptional(input: SearchInput, pageToken: string)
    ensures var p := SearchParams(input, pageToken);
      && Lookup(p, Q) == (if input.query != "" then Some(input.query) else None)
      && Lookup(p, VideoDurationParam)
         == (if input.filters.videoDuration != AnyDuration then Some(DurationName(input.filters.videoDuration)) else None)
      && Lookup(p, PublishedAfter)
         == (if input.filters.publishedAfter != "" then Some(input.isoDate(input.filters.publishedAfter)) else None)
      && Lookup(p, ChannelIdParam)
         == (if HasChannelFilter(input.filters) then input.filters.channelId else None)
      && Lookup(p, PageToken) == (if pageToken != "" then Some(pageToken) else None)
  {
    SearchParamsLookup(input, pageToken, Q);
    SearchParamsLookup(input, pageToken, VideoDurationParam);
    SearchParamsLookup(input, pageToken, PublishedAfter);
    SearchParamsLookup(input, pageToken, ChannelIdParam);
    SearchParamsLookup(input, pageToken, PageToken);
  }

  /** The parameters every page request carries: `order`, `type=video`, `maxResults=50` and the key. */
  lemma SearchParamsAlways(input: SearchInput, pageToken: string)
    ensures var p := SearchParams(input, pageToken);
      && Lookup(p, OrderParam) == Some(OrderName(input.filters.order))
      && Lookup(p, Type) == Some("video")
      && Lookup(p, MaxResults) == Some(NatToDecimal(MAX_RESULTS_PER_PAGE))
      && Lookup(p, Key) == Some(input.apiKey)
  {
    MaxResultsText();
    SearchParamsLookup(input, pageToken, OrderParam);
    SearchParamsLookup(input, pageToken, Type);
    SearchParamsLookup(input, pageToken, MaxResults);
    SearchParamsLookup(input, pageToken, Key);
  }

  // The mapping of one search page to partial video records.

  /** `high?.url || medium?.url`: the high resolution URL unless it is missing or empty. */
  function Thumbnail(highUrl: Option<string>, mediumUrl: Option<string>): Option<string>
  {
    if highUrl.Some? && highUrl.value != "" then highUrl else mediumUrl
  }

  function ToPartialVideo(item: VideoSearchItem): PartialVideo
  {
    PartialVideo(
      item.videoId,
      item.title,
      Thumbnail(item.highUrl, item.mediumUrl),
      item.publishedAt,
      item.channelId,
      item.channelTitle,
      WATCH_URL_PREFIX + item.videoId)
  }

  /** The records of one page, in item order. */
  function PageVideos(items: seq<VideoSearchItem>): (vs: seq<PartialVideo>)
    ensures |vs| == |items|
  {
    seq(|items|, i requires 0 <= i < |items| => ToPartialVideo(items[i]))
  }

  /** Each record of a page keeps its item's fields, links to the watch page of its id and
      prefers the high resolution thumbnail, falling back to the medium one. */
  lemma PageVideosContent(items: seq<VideoSearchItem>, i: nat)
    requires i < |items|
    ensures var v := PageVideos(items)[i];
      && v.id == items[i].videoId
      && v.title == items[i].title
      && v.publishedAt == items[i].publishedAt
      && v.channelId == items[i].channelId
      && v.channelTitle == items[i].channelTitle
      && v.videoUrl[..|WATCH_URL_PREFIX|] == WATCH_URL_PREFIX
      && v.videoUrl[|WATCH_URL_PREFIX|..] == items[i].videoId
      && (items[i].highUrl.Some? && items[i].highUrl.value != "" ==> v.thumbnail == items[i].highUrl)
      && (items[i].highUrl.None? || items[i].highUrl.value == "" ==> v.thumbnail == items[i].mediumUrl)
  {
  }

  // The search loop, as a specification.

  /** `data.nextPageToken || ''`. */
  function TokenOf(body: SearchResult): string
  {
    if body.nextPageToken.Some? then body.nextPageToken.value else ""
  }

  /** `!data.items || data.items.length === 0`. */
  predicate IsEmptyPage(body: SearchResult)
  {
    body.items.None? || |body.items.value| == 0
  }

  /** `errorData.error?.message || 'Failed to fetch search results'`. */
  function ErrorMessage(message: Option<string>): string
  {
    if message.Some? && message.value != "" then message.value else SEARCH_FAILED_MESSAGE
  }

  /** The progress reported before the page numbered `pageCount + 1` is requested. */
  function PageProgress(pageCount: nat): (p: FetchProgress)
    ensures p.total == 200
    ensures pageCount < MAX_PAGES_DEEP_SEARCH ==> p.current < p.total
  {
    FetchProgress(
      pageCount * MAX_RESULTS_PER_PAGE,
      MAX_PAGES_DEEP_SEARCH * MAX_RESULTS_PER_PAGE,
      FetchingPage(pageCount + 1))
  }

  /** What a run of the search loop produces: the collected records or the error thrown,
      the parameters of every request made, and every progress report, in order. */
  datatype SearchRun = SearchRun(
    outcome: Result<seq<PartialVideo>, string>,
    requests: seq<Params>,
    progress: seq<FetchProgress>)

  /** `run` preceded by records, requests and reports produced earlier. */
  function Then(videos: seq<PartialVideo>, requests: seq<Params>, progress: seq<FetchProgress>, run: SearchRun): SearchRun
  {
    SearchRun(
      if run.outcome.Ok? then Ok(videos + run.outcome.value) else run.outcome,
      requests + run.requests,
      progress + run.progress)
  }

  lemma ThenThen(v1: seq<PartialVideo>, r1: seq<Params>, p1: seq<FetchProgress>,
                 v2: seq<PartialVideo>, r2: seq<Params>, p2: seq<FetchProgress>, run: SearchRun)
    ensures Then(v1, r1, p1, Then(v2, r2, p2, run)) == Then(v1 + v2, r1 + r2, p1 + p2, run)
  {
    if run.outcome.Ok? {
      assert v1 + (v2 + run.outcome.value) == (v1 + v2) + run.outcome.value;
    }
    assert r1 + (r2 + run.requests) == (r1 + r2) + run.requests;
    assert p1 + (p2 + run.progress) == (p1 + p2) + run.progress;
  }

  lemma ThenNothing(run: SearchRun)
    ensures Then([], [], [], run) == run
  {
    if run.outcome.Ok? {
      assert [] + run.outcome.value == run.outcome.value;
    }
    assert [] + run.requests == run.requests;
    assert [] + run.progress == run.progress;
  }

  /** A response after which the loop asks for another page: a non-empty page with a token. */
  predicate Continues(response: SearchResponse)
  {
    response.SearchOk? && !IsEmptyPage(response.body) && TokenOf(response.body) != ""
  }

  /** The records a response contributes: its page's records, or none. */
  function ResponseVideos(response: SearchResponse): seq<PartialVideo>
  {
    if response.SearchOk? && !IsEmptyPage(response.body) then PageVideos(response.body.items.value) else []
  }

  /** The outcome of the loop when `response` ends it: the upstream error, or the records
      of its page (none for an empty page). */
  function LastOutcome(response: SearchResponse): Result<seq<PartialVideo>, string>
  {
    if response.SearchFailed? then Err(ErrorMessage(response.message)) else Ok(ResponseVideos(response))
  }

  /** How the loop builds the request for the page after the one with a given token. */
  function PageRequest(input: SearchInput): string -> Params
  {
    token => SearchParams(input, token)
  }

  /** The rest of the search loop, entered with `pageCount` pages collected and the token
      of the last one; `request` builds each page's parameters from the previous token. */
  function Collect(search: Params -> SearchResponse, request: string -> Params, pageCount: nat, token: string): SearchRun
    decreases MAX_PAGES_DEEP_SEARCH - pageCount
  {
    if pageCount >= MAX_PAGES_DEEP_SEARCH then SearchRun(Ok([]), [], [])
    else
      var params := request(token);
      var response := search(params);
      if Continues(response) then
        Then(PageVideos(response.body.items.value), [params], [PageProgress(pageCount)],
             Collect(search, request, pageCount + 1, TokenOf(response.body)))
      else
        SearchRun(LastOutcome(response), [params], [PageProgress(pageCount)])
  }

  /** One turn of the loop that asks for another page, seen from the whole loop. */
  lemma StepContinues(search: Params -> SearchResponse, request: string -> Params, pageCount: nat, token: string,
                      videos: seq<PartialVideo>, requests: seq<Params>, progress: seq<FetchProgress>)
    requires pageCount < MAX_PAGES_DEEP_SEARCH
    requires Continues(search(request(token)))
    ensures var params := request(token);
      var body := search(params).body;
      Then(videos, requests, progress, Collect(search, request, pageCount, token))
      == Then(videos + PageVideos(body.items.value), requests + [params], progress + [PageProgress(pageCount)],
              Collect(search, request, pageCount + 1, TokenOf(body)))
  {
    var params := request(token);
    var body := search(params).body;
    var rest := Collect(search, request, pageCount + 1, TokenOf(body));
    ThenThen(videos, requests, progress, PageVideos(body.items.value), [params], [PageProgress(pageCount)], rest);
  }

  /** The last turn of the loop: an error, an empty page or a page without a token. */
  lemma StepStops(search: Params -> SearchResponse, request: string -> Params, pageCount: nat, token: string,
                  videos: seq<PartialVideo>, requests: seq<Params>, progress: seq<FetchProgress>)
    requires pageCount < MAX_PAGES_DEEP_SEARCH
    requires !Continues(search(request(token)))
    ensures var params := request(token);
      var response := search(params);
      Then(videos, requests, progress, Collect(search, request, pageCount, token))
      == SearchRun(
           if response.SearchFailed? then Err(ErrorMessage(response.message)) else Ok(videos + ResponseVideos(response)),
           requests + [params], progress + [PageProgress(pageCount)])
  {
    var response := search(request(token));
    if response.SearchOk? && IsEmptyPage(response.body) {
      assert ResponseVideos(response) == [];
    }
  }

  /** The deep search: the loop below, each page requested with the parameters built from
      the input and the previous page's token. */
  method DeepSearch(search: Params -> SearchResponse, input: SearchInput) returns (run: SearchRun)
    ensures run == Collect(search, PageRequest(input), 0, "")
  {
    run := SearchPages(search, PageRequest(input));
  }

  /** The deep search loop: request a page, stop on an error, an empty page or a missing token,
      otherwise append the page's records and go on, for at most four pages. */
  method SearchPages(search: Params -> SearchResponse, request: string -> Params) returns (run: SearchRun)
    ensures run == Collect(search, request, 0, "")
  {
    var allVideos: seq<PartialVideo> := [];
    var nextPageToken := "";
    var pageCount: nat := 0;
    var requests: seq<Params> := [];
    var progress: seq<FetchProgress> := [];
    ThenNothing(Collect(search, request, 0, ""));
    while pageCount < MAX_PAGES_DEEP_SEARCH
      invariant Collect(search, request, 0, "")
        == Then(allVideos, requests, progress, Collect(search, request, pageCount, nextPageToken))
      decreases MAX_PAGES_DEEP_SEARCH - pageCount
    {
      var params := request(nextPageToken);
      var response := search(params);
      if response.SearchFailed? {
        StepStops(search, request, pageCount, nextPageToken, allVideos, requests, progress);
        progress := progress + [PageProgress(pageCount)];
        requests := requests + [params];
        run := SearchRun(Err(ErrorMessage(response.message)), requests, progress);
        return;
      }
      var body := response.body;
      if IsEmptyPage(body) {
        StepStops(search, request, pageCount, nextPageToken, allVideos, requests, progress);
        progress := progress + [PageProgress(pageCount)];
        requests := requests + [params];
        assert allVideos + [] == allVideos;
        run := SearchRun(Ok(allVideos), requests, progress);
        return;
      }
      if TokenOf(body) == "" {
        StepStops(search, request, pageCount, nextPageToken, allVideos, requests, progress);
      } else {
        StepContinues(search, request, pageCount, nextPageToken, allVideos, requests, progress);
      }
      progress := progress + [PageProgress(pageCount)];
      requests := requests + [params];
      allVideos := allVideos + PageVideos(body.items.value);
      nextPageToken := TokenOf(body);
      pageCount := pageCount + 1;
      if nextPageToken == "" {
        run := SearchRun(Ok(allVideos), requests, progress);
        return;
      }
    }
    assert allVideos + [] == allVideos && requests + [] == requests && progress + [] == progress;
    run := SearchRun(Ok(allVideos), requests, progress);
  }

  // What the search loop guarantees.

  /** The requests and reports of the loop entered at `pageCount` with `token`, as the page
      just requested and the rest of the loop after it. */
  lemma CollectStep(search: Params -> SearchResponse, request: string -> Params, pageCount: nat, token: string)
    requires pageCount < MAX_PAGES_DEEP_SEARCH
    ensures var run := Collect(search, request, pageCount, token);
      var params := request(token);
      var response := search(params);
      && (Continues(response) ==>
            var rest := Collect(search, request, pageCount + 1, TokenOf(response.body));
            run.requests == [params] + rest.requests && run.progress == [PageProgress(pageCount)] + rest.progress)
      && (!Continues(response) ==> run.requests == [params] && run.progress == [PageProgress(pageCount)])
  {
  }

  /** At most one request per remaining page of the budget, one progress report before each;
      the first request carries the token the loop was entered with. */
  lemma {:induction false} CollectCounts(search: Params -> SearchResponse, request: string -> Params, pageCount: nat, token: string)
    requires pageCount <= MAX_PAGES_DEEP_SEARCH
    ensures var run := Collect(search, request, pageCount, token);
      && |run.requests| == |run.progress| <= MAX_PAGES_DEEP_SEARCH - pageCount
      && (pageCount < MAX_PAGES_DEEP_SEARCH ==> |run.requests| >= 1 && run.requests[0] == request(token))
    decreases MAX_PAGES_DEEP_SEARCH - pageCount
  {
    if pageCount < MAX_PAGES_DEEP_SEARCH {
      CollectStep(search, request, pageCount, token);
      var response := search(request(token));
      if Continues(response) {
        CollectCounts(search, request, pageCount + 1, TokenOf(response.body));
      }
    }
  }

  /** The reports count up the pages: before the request for page `pageCount + k + 1` the
      loop reports `current = (pageCount + k) * 50`, always below `total = 200`. */
  lemma {:induction false} CollectProgress(search: Params -> SearchResponse, request: string -> Params, pageCount: nat, token: string)
    requires pageCount <= MAX_PAGES_DEEP_SEARCH
    ensures var run := Collect(search, request, pageCount, token);
      forall k :: 0 <= k < |run.progress| ==>
        && run.progress[k] == PageProgress(pageCount + k)
        && run.progress[k].current < run.progress[k].total == 200
    decreases MAX_PAGES_DEEP_SEARCH - pageCount
  {
    var run := Collect(search, request, pageCount, token);
    CollectCounts(search, request, pageCount, token);
    if pageCount < MAX_PAGES_DEEP_SEARCH {
      CollectStep(search, request, pageCount, token);
      var response := search(request(token));
      if Continues(response) {
        var rest := Collect(search, request, pageCount + 1, TokenOf(response.body));
        CollectProgress(search, request, pageCount + 1, TokenOf(response.body));
        forall k | 0 <= k < |run.progress|
          ensures run.progress[k] == PageProgress(pageCount + k)
        {
          if k > 0 {
            assert run.progress[k] == rest.progress[k - 1];
          }
        }
      }
    }
  }

  /** Every request after the first carries the token of the page before it, and that page
      was a non-empty page with a token. */
  lemma {:induction false} CollectChain(search: Params -> SearchResponse, request: string -> Params, pageCount: nat, token: string)
    requires pageCount <= MAX_PAGES_DEEP_SEARCH
    ensures var run := Collect(search, request, pageCount, token);
      forall k :: 0 <= k < |run.requests| - 1 ==>
        && Continues(search(run.requests[k]))
        && run.requests[k + 1] == request(TokenOf(search(run.requests[k]).body))
    decreases MAX_PAGES_DEEP_SEARCH - pageCount
  {
    var run := Collect(search, request, pageCount, token);
    if pageCount < MAX_PAGES_DEEP_SEARCH {
      CollectStep(search, request, pageCount, token);
      var params := request(token);
      var response := search(params);
      if Continues(response) {
        var next := TokenOf(response.body);
        var rest := Collect(search, request, pageCount + 1, next);
        CollectChain(search, request, pageCount + 1, next);
        CollectCounts(search, request, pageCount + 1, next);
        forall k | 0 <= k < |run.requests| - 1
          ensures Continues(search(run.requests[k]))
          ensures run.requests[k + 1] == request(TokenOf(search(run.requests[k]).body))
        {
          if k > 0 {
            assert run.requests[k] == rest.requests[k - 1];
            assert run.requests[k + 1] == rest.requests[k];
          }
        }
      }
    }
  }

  /** Why the loop stopped, read off its last response: it failed exactly when the outcome is
      the upstream error; a page that would have let it continue means the four-page budget
      is spent. */
  lemma {:induction false} CollectStops(search: Params -> SearchResponse, request: string -> Params, pageCount: nat, token: string)
    requires pageCount < MAX_PAGES_DEEP_SEARCH
    ensures var run := Collect(search, request, pageCount, token);
      && |run.requests| >= 1
      && var last := search(run.requests[|run.requests| - 1]);
      && (run.outcome.Err? <==> last.SearchFailed?)
      && (last.SearchFailed? ==> run.outcome == Err(ErrorMessage(last.message)))
      && (Continues(last) ==> pageCount + |run.requests| == MAX_PAGES_DEEP_SEARCH)
    decreases MAX_PAGES_DEEP_SEARCH - pageCount
  {
    var run := Collect(search, request, pageCount, token);
    var params := request(token);
    var response := search(params);
    if !Continues(response) {
      assert run.requests == [params];
    } else if pageCount + 1 == MAX_PAGES_DEEP_SEARCH {
      var rest := Collect(search, request, pageCount + 1, TokenOf(response.body));
      assert rest == SearchRun(Ok([]), [], []);
      assert run.requests == [params] + rest.requests;
      assert run.requests == [params];
    } else {
      var rest := Collect(search, request, pageCount + 1, TokenOf(response.body));
      CollectStops(search, request, pageCount + 1, TokenOf(response.body));
      assert run == Then(PageVideos(response.body.items.value), [params], [PageProgress(pageCount)], rest);
      assert run.requests == [params] + rest.requests;
      assert run.requests[|run.requests| - 1] == rest.requests[|rest.requests| - 1];
    }
  }

  /** The records contributed by the responses to the given requests, one list per request. */
  function PagesOf(search: Params -> SearchResponse, requests: seq<Params>): (pages: seq<seq<PartialVideo>>)
    ensures |pages| == |requests|
  {
    if requests == [] then [] else [ResponseVideos(search(requests[0]))] + PagesOf(search, requests[1..])
  }

  /** The collected records are the records of the pages received, in arrival order. */
  lemma {:induction false} CollectVideos(search: Params -> SearchResponse, request: string -> Params, pageCount: nat, token: string)
    requires pageCount <= MAX_PAGES_DEEP_SEARCH
    ensures var run := Collect(search, request, pageCount, token);
      run.outcome.Ok? ==> run.outcome.value == Concat(PagesOf(search, run.requests))
    decreases MAX_PAGES_DEEP_SEARCH - pageCount
  {
    var run := Collect(search, request, pageCount, token);
    if pageCount < MAX_PAGES_DEEP_SEARCH && run.outcome.Ok? {
      var params := request(token);
      var response := search(params);
      if Continues(response) {
        var next := TokenOf(response.body);
        var rest := Collect(search, request, pageCount + 1, next);
        CollectVideos(search, request, pageCount + 1, next);
        assert run == Then(PageVideos(response.body.items.value), [params], [PageProgress(pageCount)], rest);
        assert run.requests == [params] + rest.requests;
        assert run.requests[1..] == rest.requests;
        assert PagesOf(search, run.requests) == [ResponseVideos(response)] + PagesOf(search, rest.requests);
      } else {
        assert run.requests == [params];
        assert PagesOf(search, run.requests) == [ResponseVideos(response)];
      }
    }
  }

  /** When the endpoint honours `maxResults` (at most 50 items a page), a deep search collects
      at most 50 records per request and so at most 200 in all. */
  lemma {:induction false} CollectAtMost200(search: Params -> SearchResponse, request: string -> Params, pageCount: nat, token: string)
    requires pageCount <= MAX_PAGES_DEEP_SEARCH
    requires forall p :: search(p).SearchOk? && search(p).body.items.Some? ==>
      |search(p).body.items.value| <= MAX_RESULTS_PER_PAGE
    ensures var run := Collect(search, request, pageCount, token);
      run.outcome.Ok? ==>
        |run.outcome.value| <= MAX_RESULTS_PER_PAGE * |run.requests|
        <= MAX_RESULTS_PER_PAGE * (MAX_PAGES_DEEP_SEARCH - pageCount)
    decreases MAX_PAGES_DEEP_SEARCH - pageCount
  {
    CollectCounts(search, request, pageCount, token);
    if pageCount < MAX_PAGES_DEEP_SEARCH {
      var response := search(request(token));
      if Continues(response) {
        CollectAtMost200(search, request, pageCount + 1, TokenOf(response.body));
      }
    }
  }
}
