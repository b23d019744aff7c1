/** `fetchYouTubeData`: the deep search, the two statistics steps and the merge, in order. */
module Pipeline {
  import opened Wrappers
  import opened Types
  import opened Seqs
  import opened Chunking
  import opened SearchCollector
  import opened Enrichment
  import opened Merging

  const API_KEY_REQUIRED: string := "API Key is required"

  /** What one call produces: the finished records or the error thrown, the parameters of every
      search request, the id batches of every statistics request, and every progress report. */
  datatype PipelineRun = PipelineRun(
    outcome: Result<seq<YouTubeVideo>, string>,
    searchRequests: seq<Params>,
    videoBatches: seq<seq<string>>,
    channelBatches: seq<seq<string>>,
    progress: seq<FetchProgress>)

  /** The report sent at the start of a later stage: current and total are both the number of
      collected records. */
  function StageProgress(n: nat, phase: Phase): FetchProgress
  {
    FetchProgress(n, n, phase)
  }

  /** The video statistics map of a run whose search collected `videos`. */
  function StatsMapOf(api: Api, apiKey: string, videos: seq<PartialVideo>): map<string, VideoStats>
  {
    IndexBy(ReceivedVideoItems(api.videos, apiKey, Chunks(VideoIds(videos), ID_BATCH_SIZE)), ItemId, VideoStatsOf)
  }

  /** The channel statistics map of a run whose search collected `videos`. */
  function ChannelMapOf(api: Api, apiKey: string, videos: seq<PartialVideo>): map<string, Option<JsCount>>
  {
    IndexBy(ReceivedChannelItems(api.channels, apiKey, Chunks(ChannelIds(videos), ID_BATCH_SIZE)), ChannelItemId, SubscribersOf)
  }

  /** The whole pipeline as a specification. */
  function Pipeline(api: Api, input: SearchInput): PipelineRun
  {
    if input.apiKey == "" then PipelineRun(Err(API_KEY_REQUIRED), [], [], [], [])
    else
      var search := Collect(api.search, PageRequest(input), 0, "");
      if search.outcome.Err? then
        PipelineRun(Err(search.outcome.error), search.requests, [], [], search.progress)
      else
        var videos := search.outcome.value;
        var n := |videos|;
        PipelineRun(
          Ok(MergeAll(videos, StatsMapOf(api, input.apiKey, videos), ChannelMapOf(api, input.apiKey, videos))),
          search.requests,
          Chunks(VideoIds(videos), ID_BATCH_SIZE),
          Chunks(ChannelIds(videos), ID_BATCH_SIZE),
          search.progress + [StageProgress(n, FetchingVideoStats), StageProgress(n, FetchingChannelStats),
                             StageProgress(n, Finalizing)])
  }

  /** `fetchYouTubeData`: reject a missing key, search, fetch the video statistics, then the
      channel statistics, then merge. */
  method FetchYouTubeData(api: Api, input: SearchInput) returns (run: PipelineRun)
    ensures run == Pipeline(api, input)
  {
    if input.apiKey == "" {
      run := PipelineRun(Err(API_KEY_REQUIRED), [], [], [], []);
      return;
    }
    var search := DeepSearch(api.search, input);
    if search.outcome.Err? {
      run := PipelineRun(Err(search.outcome.error), search.requests, [], [], search.progress);
      return;
    }
    var allVideos := search.outcome.value;
    var progress := search.progress + [StageProgress(|allVideos|, FetchingVideoStats)];
    var videoIds := VideoIds(allVideos);
    var videoStatsMap, videoBatches := FetchVideoStats(api.videos, input.apiKey, videoIds);
    progress := progress + [StageProgress(|allVideos|, FetchingChannelStats)];
    var channelIds := ChannelIds(allVideos);
    var channelStatsMap, channelBatches := FetchChannelStats(api.channels, input.apiKey, channelIds);
    progress := progress + [StageProgress(|allVideos|, Finalizing)];
    var finalVideos := MergeAll(allVideos, videoStatsMap, channelStatsMap);
    run := PipelineRun(Ok(finalVideos), search.requests, videoBatches, channelBatches, progress);
  }

  // What a call guarantees.

  /** Without a key the call fails at once: no request of any kind and no progress report. */
  lemma MissingKey(api: Api, input: SearchInput)
    requires input.apiKey == ""
    ensures var run := Pipeline(api, input);
      && run.outcome == Err(API_KEY_REQUIRED)
      && run.searchRequests == [] && run.videoBatches == [] && run.channelBatches == []
      && run.progress == []
  {
  }

  /** Each search request is built from the input and some token. */
  lemma {:induction false} RequestsFromTokens(search: Params -> SearchResponse, input: SearchInput)
    ensures var run := Collect(search, PageRequest(input), 0, "");
      forall k :: 0 <= k < |run.requests| ==> exists t :: run.requests[k] == SearchParams(input, t)
  {
    var run := Collect(search, PageRequest(input), 0, "");
    CollectCounts(search, PageRequest(input), 0, "");
    CollectChain(search, PageRequest(input), 0, "");
    forall k | 0 <= k < |run.requests|
      ensures exists t :: run.requests[k] == SearchParams(input, t)
    {
      if k == 0 {
        assert run.requests[0] == SearchParams(input, "");
      } else {
        var t := TokenOf(search(run.requests[k - 1]).body);
        assert run.requests[k] == SearchParams(input, t);
      }
    }
  }

  /** The search part of a call with a key: at most four requests, the first without a token
      and each later one with the token of the page before, which was non-empty; one report
      per request, before it, with `current = 50 * page index < total = 200`. */
  lemma {:induction false} SearchRequests(api: Api, input: SearchInput)
    requires input.apiKey != ""
    ensures var run := Pipeline(api, input);
      && 1 <= |run.searchRequests| <= MAX_PAGES_DEEP_SEARCH
      && run.searchRequests[0] == SearchParams(input, "")
      && Lookup(run.searchRequests[0], PageToken).None?
      && (forall k :: 0 <= k < |run.searchRequests| - 1 ==>
            && Continues(api.search(run.searchRequests[k]))
            && run.searchRequests[k + 1] == SearchParams(input, TokenOf(api.search(run.searchRequests[k]).body)))
      && (forall k :: 0 <= k < |run.searchRequests| ==>
            && run.progress[k] == PageProgress(k)
            && run.progress[k].current == k * MAX_RESULTS_PER_PAGE < run.progress[k].total)
  {
    var search := Collect(api.search, PageRequest(input), 0, "");
    CollectCounts(api.search, PageRequest(input), 0, "");
    CollectChain(api.search, PageRequest(input), 0, "");
    CollectProgress(api.search, PageRequest(input), 0, "");
    SearchParamsOptional(input, "");
    var run := Pipeline(api, input);
    assert run.searchRequests == search.requests;
    forall k | 0 <= k < |run.searchRequests|
      ensures run.progress[k] == PageProgress(k)
    {
      assert run.progress[k] == search.progress[k];
    }
  }

  /** In channel mode (a channel filter and no query) every search request carries the channel
      id and no `q`, so the whole upload list of the channel is searched. */
  lemma ChannelMode(api: Api, input: SearchInput)
    requires HasChannelFilter(input.filters) && input.query == ""
    ensures var requests := Pipeline(api, input).searchRequests;
      forall k :: 0 <= k < |requests| ==>
        Lookup(requests[k], ChannelIdParam) == input.filters.channelId && Lookup(requests[k], Q).None?
  {
    var run := Collect(api.search, PageRequest(input), 0, "");
    RequestsFromTokens(api.search, input);
    var requests := Pipeline(api, input).searchRequests;
    forall k | 0 <= k < |requests|
      ensures Lookup(requests[k], ChannelIdParam) == input.filters.channelId && Lookup(requests[k], Q).None?
    {
      if input.apiKey != "" {
        assert requests[k] == run.requests[k];
        var t :| run.requests[k] == SearchParams(input, t);
        SearchParamsOptional(input, t);
      }
    }
  }

  /** Why a call failed: a missing key, or the search's last response was a failure, whose
      message (or the default one) is the error; no statistics request is then made. */
  lemma {:induction false} Failure(api: Api, input: SearchInput)
    ensures var run := Pipeline(api, input);
      run.outcome.Err? ==>
        && run.videoBatches == [] && run.channelBatches == []
        && (input.apiKey != "" ==>
              && |run.searchRequests| >= 1
              && var last := api.search(run.searchRequests[|run.searchRequests| - 1]);
              && last.SearchFailed?
              && run.outcome.error == ErrorMessage(last.message))
  {
    if input.apiKey != "" {
      CollectStops(api.search, PageRequest(input), 0, "");
    }
  }

  /** The records of a successful call: one per record collected from the pages, in page order;
      at most 200 when every page holds at most 50 items; the search stopped on an empty page,
      a page without a token or after four pages. */
  lemma {:induction false} Output(api: Api, input: SearchInput)
    ensures var run := Pipeline(api, input);
      run.outcome.Ok? ==>
        var videos := Concat(PagesOf(api.search, run.searchRequests));
        && |run.outcome.value| == |videos|
        && (forall i :: 0 <= i < |videos| ==>
              && run.outcome.value[i].id == videos[i].id
              && run.outcome.value[i].title == videos[i].title
              && run.outcome.value[i].channelId == videos[i].channelId
              && run.outcome.value[i].videoUrl == videos[i].videoUrl)
        && ((forall p :: api.search(p).SearchOk? && api.search(p).body.items.Some? ==>
               |api.search(p).body.items.value| <= MAX_RESULTS_PER_PAGE)
            ==> |videos| <= MAX_PAGES_DEEP_SEARCH * MAX_RESULTS_PER_PAGE)
        && var last := api.search(run.searchRequests[|run.searchRequests| - 1]);
        && !last.SearchFailed?
        && (Continues(last) ==> |run.searchRequests| == MAX_PAGES_DEEP_SEARCH)
  {
    if input.apiKey != "" {
      CollectVideos(api.search, PageRequest(input), 0, "");
      CollectStops(api.search, PageRequest(input), 0, "");
      if forall p :: api.search(p).SearchOk? && api.search(p).body.items.Some? ==>
           |api.search(p).body.items.value| <= MAX_RESULTS_PER_PAGE
      {
        CollectAtMost200(api.search, PageRequest(input), 0, "");
      }
    }
  }

  /** The three stage reports close the progress of a successful call, each with current and
      total equal to the number of records. */
  lemma StageReports(api: Api, input: SearchInput)
    ensures var run := Pipeline(api, input);
      run.outcome.Ok? ==>
        var n := |run.outcome.value|;
        && |run.progress| == |run.searchRequests| + 3
        && run.progress[|run.progress| - 3..]
           == [FetchProgress(n, n, FetchingVideoStats), FetchProgress(n, n, FetchingChannelStats),
               FetchProgress(n, n, Finalizing)]
  {
    if input.apiKey != "" {
      CollectCounts(api.search, PageRequest(input), 0, "");
    }
  }

  /** The statistics requests of a successful call: every batch holds 1 to 50 ids, the video
      batches concatenate to the non-empty video ids in order and number ceil(N / 50), and the
      channel batches likewise to the distinct non-empty channel ids. */
  lemma {:induction false} Batches(api: Api, input: SearchInput)
    ensures var run := Pipeline(api, input);
      run.outcome.Ok? && input.apiKey != "" ==>
        var videos := Collect(api.search, PageRequest(input), 0, "").outcome.value;
        && (forall c :: c in run.videoBatches ==> 0 < |c| <= ID_BATCH_SIZE)
        && Concat(run.videoBatches) == VideoIds(videos)
        && |run.videoBatches| == (|VideoIds(videos)| + ID_BATCH_SIZE - 1) / ID_BATCH_SIZE
        && (forall c :: c in run.channelBatches ==> 0 < |c| <= ID_BATCH_SIZE)
        && Concat(run.channelBatches) == ChannelIds(videos)
        && Distinct(Concat(run.channelBatches))
        && |run.channelBatches| == (|ChannelIds(videos)| + ID_BATCH_SIZE - 1) / ID_BATCH_SIZE
  {
    var run := Pipeline(api, input);
    if run.outcome.Ok? && input.apiKey != "" {
      var videos := Collect(api.search, PageRequest(input), 0, "").outcome.value;
      ChunksBounded(VideoIds(videos), ID_BATCH_SIZE);
      ChunksConcat(VideoIds(videos), ID_BATCH_SIZE);
      ChunksCount(VideoIds(videos), ID_BATCH_SIZE);
      ChunksBounded(ChannelIds(videos), ID_BATCH_SIZE);
      ChunksConcat(ChannelIds(videos), ID_BATCH_SIZE);
      ChunksCount(ChannelIds(videos), ID_BATCH_SIZE);
      ChannelIdsContent(videos);
    }
  }
}
