# youtubein data pipeline, modelled in Dafny

This project models the data pipeline of the youtubein viral-video finder, `services/youtubeService.ts`.
The record shapes come from `types.ts` and the constants from `constants.ts`.

The model covers these steps:

- **Channel resolution** (`resolveChannelId`). One channel search request is made, and the first item of the answer is kept.
- **Deep search.** A loop reads at most `MAX_PAGES_DEEP_SEARCH` (4) pages of `MAX_RESULTS_PER_PAGE` (50) results.
  - The request parameters of each page depend on the query, the filters and the previous page's token.
  - The loop stops on an upstream error, an empty page or a page without a continuation token.
  - It sends a progress report before each page.
- **Enrichment.** The non-empty video ids, and the distinct non-empty channel ids, are cut into batches of at most 50. One request is sent per batch. Each answer fills a map, one `Map.set` per returned item.
- **Merge and scoring.** Every collected video gets:
  - its statistics, or zeros and an empty duration when none came back;
  - its channel's subscriber count, or `null` when it is hidden or unknown;
  - a viral score: views / subscribers × 100 when there are more than zero subscribers, and 0 otherwise.

How the model represents the program:

- **The network.** Each remote endpoint is a function field of `Types.Api`. It maps the request's query parameters to the response. The parameters are a list of name/value pairs in the order the program appends them.
- **Logging.** A run records every request it makes and every `onProgress` report.
  - So the model can state when no request is made, one request per page, one request per batch, and the exact reports.
- **Loops as methods.** The three loops of `fetchYouTubeData` are methods, each proved equal to a recursive specification function:
  - the search loop: `SearchCollector.SearchPages`, proved equal to `SearchCollector.Collect`;
  - the two statistics loops: `Enrichment.FetchVideoStats` and `Enrichment.FetchChannelStats`, proved equal to `IndexBy` over the received items.
- **Pure parts as functions.** The item mapping, the id extraction and the merge are functions.
- **The whole call.** `Pipeline.FetchYouTubeData` is proved equal to the function `Pipeline.Pipeline`. The lemmas of module `Pipeline` state what a call guarantees.

Files:

- `wrappers.dfy`: `Option` and `Result`.
- `seqs.dfy`: concatenation of a list of lists.
- `types.dfy`: records, filters, constants, query parameters and endpoint responses.
- `numbers.dfy`: `parseInt` and `toString` on counts.
- `channel_resolver.dfy`: `resolveChannelId`.
- `search_collector.dfy`: the deep search.
- `chunking.dfy`: id lists and batches.
- `enrichment.dfy`: the statistics loops and maps.
- `merging.dfy`: the merge and the viral score.
- `pipeline.dfy`: `fetchYouTubeData`.

## Model

| member | source | states |
|---|---|---|
| Numbers.ParseInt | services/youtubeService.ts:121-122 | `parseInt(s, 10)` is NaN exactly when `s` is empty or does not start with a digit. |
| Numbers.NatToDecimal | services/youtubeService.ts:50 | `n.toString()` is a non-empty string of digits with no leading zero. |
| Numbers.ParseIntOfDecimal | services/youtubeService.ts:121-122 | Parsing the decimal text of `n`, followed by anything not starting with a digit, gives back `n`. |
| Numbers.ParseCountCases | services/youtubeService.ts:119-125 | A count field parses to 0 when it is missing or empty, to `n` when it is the text of `n`, and to NaN when it starts with a non-digit. |
| SearchCollector.MaxResultsText | services/youtubeService.ts:50 | The `maxResults` value sent is the decimal text of `MAX_RESULTS_PER_PAGE` (50). |
| SearchCollector.HeadParamsLookup | services/youtubeService.ts:48-60 | The first parameters of a page request are `part=snippet`, `maxResults=50`, `q` only for a non-empty query, `type=video`, the key and `order`. |
| SearchCollector.SearchParamsLookup | services/youtubeService.ts:48-73 | Every parameter name of a page request has exactly the value of the table `ExpectedParam`, including absence of the conditional ones. |
| SearchCollector.SearchParamsOptional | services/youtubeService.ts:54-73 | `q` is sent only for a non-empty query. `videoDuration` is sent only when it is not `any`. `publishedAfter` (ISO form) is sent only when it is non-empty. `channelId` is sent only when it is set. `pageToken` is sent only when the previous token is non-empty. |
| SearchCollector.SearchParamsAlways | services/youtubeService.ts:49-60 | `order`, `type=video`, `maxResults=50` and the key are always sent. |
| SearchCollector.PageVideos | services/youtubeService.ts:85-93 | One partial record per search item. |
| SearchCollector.PageVideosContent | services/youtubeService.ts:85-93 | Each record keeps its item's id, title, date and channel. Its `videoUrl` is the watch URL prefix followed by the id. Its thumbnail is the high URL, falling back to the medium one. |
| SearchCollector.PageProgress | services/youtubeService.ts:42-46 | Reports have total 200. Within the page budget, `current` is below `total`. |
| SearchCollector.SearchPages | services/youtubeService.ts:41-100 | The `while` loop produces exactly the records, requests and reports of the specification `Collect`. |
| SearchCollector.DeepSearch | services/youtubeService.ts:41-100 | The loop with the program's own page parameters equals `Collect` from page 0 and an empty token. |
| SearchCollector.CollectCounts | services/youtubeService.ts:41-73 | There are at most 4 requests, one report per request, and the first request carries the entry token. |
| SearchCollector.CollectProgress | services/youtubeService.ts:42-46 | The report before page `k + 1` is `current = 50k`, `total = 200`, with `current < total`. |
| SearchCollector.CollectChain | services/youtubeService.ts:83-99 | The loop requests another page only after a non-empty page that had a token. That page's token is the one the next request carries. |
| SearchCollector.CollectStops | services/youtubeService.ts:75-99 | The run fails exactly when the last response failed, and the error is its message or the default one. A last page that would continue means the 4-page budget is spent. |
| SearchCollector.CollectVideos | services/youtubeService.ts:83-95 | The collected records are the concatenation of the pages' records in arrival order. An empty page contributes nothing. |
| SearchCollector.CollectAtMost200 | services/youtubeService.ts:41-97 | When pages hold at most 50 items, there are at most 50 records per request and at most 200 in all. |
| Chunking.ChunksBounded | services/youtubeService.ts:109-110 | Every batch holds between 1 and 50 ids. |
| Chunking.ChunksConcat | services/youtubeService.ts:109-110 | The batches, concatenated in order, are the id list. |
| Chunking.ChunksCount | services/youtubeService.ts:109 | N ids make ceil(N / 50) batches. |
| Chunking.PresentIds | services/youtubeService.ts:106 | The filter keeps exactly the non-empty ids, in order and with their repeats, and never grows the list; a list with no empty id is kept as it is. |
| Chunking.PresentIdsAppend | services/youtubeService.ts:106 | Filtering a concatenation is concatenating the filtered parts, so the filter preserves order and multiplicity. |
| Chunking.Dedup | services/youtubeService.ts:131 | `Array.from(new Set(...))` holds each value of the list exactly once. |
| Chunking.DedupDistinct | services/youtubeService.ts:131 | Deduplicating a list that has no repeats leaves it unchanged. |
| Enrichment.VideoIdsContent | services/youtubeService.ts:106 | The video id list holds exactly the non-empty ids of the collected videos; when no id is empty it is the videos' ids one for one, in order. |
| Enrichment.VideoIdsAppend | services/youtubeService.ts:106 | The ids of two lists of videos one after the other are the ids of the first list followed by those of the second. |
| Enrichment.StatsParamsContent | services/youtubeService.ts:111-114 | The video statistics request sends `part=statistics,contentDetails`, the batch's ids joined by commas as `id` and the key, and nothing else; the channel request (lines 136-139) is the same with `part=statistics`. |
| Enrichment.ChannelIdsContent | services/youtubeService.ts:131 | The channel id list holds each non-empty channel id of the videos exactly once. |
| Enrichment.SetAllAppend | services/youtubeService.ts:119-125 | Setting the items of one batch and then those of the next is setting the items of both, in order. |
| Enrichment.IndexByKeys | services/youtubeService.ts:119-125 | The map has an entry for exactly the ids of the returned items. |
| Enrichment.IndexByLastWins | services/youtubeService.ts:119-125 | For an id returned more than once, the last item wins. |
| Enrichment.VideoStatsOfCases | services/youtubeService.ts:119-125 | A missing or empty view or like count is stored as 0, and the text of `n` as `n`. The duration is copied. |
| Enrichment.SubscribersOfCases | services/youtubeService.ts:144-148 | A hidden count is stored as null. Otherwise a missing or empty count is 0, and the text of `n` is `n`. |
| Enrichment.RecordVideoItems | services/youtubeService.ts:119-125 | The `forEach` leaves the map that setting each item in order gives. |
| Enrichment.RecordChannelItems | services/youtubeService.ts:144-149 | The `forEach` leaves the map that setting each item's subscriber entry in order gives. |
| Enrichment.FetchVideoStats | services/youtubeService.ts:107-126 | The `for` loop requests exactly the batches `Chunks(ids, 50)`, and the map is built from all items received, in request order. |
| Enrichment.FetchChannelStats | services/youtubeService.ts:132-150 | The `for` loop over the channel ids requests exactly `Chunks(ids, 50)`, and the map is built from all items received. |
| ChannelResolver.ResolveParamsContent | services/youtubeService.ts:8-13 | The channel search sends `part=snippet`, the query, `type=channel`, `maxResults=1` and the key, and nothing else. |
| ChannelResolver.ResolveChannelId | services/youtubeService.ts:18-25 | It asks the channel search endpoint. A channel is returned exactly when the answer has an item. It carries the first item's id, title and default thumbnail. Otherwise the result is null. |
| Merging.ViralScore | services/youtubeService.ts:161-164 | The score is 0 unless subscribers are a number above 0. Otherwise it satisfies `score * subs == views * 100`, is non-negative, and is NaN exactly for NaN views. There is never a division by zero. |
| Merging.MergeVideo | services/youtubeService.ts:155-180 | The partial fields are kept. The statistics come from the map, or are zeros and an empty duration. The subscribers come from the map, or are null. `commentCount` is 0. The score is that of the views and subscribers. |
| Merging.MergeAll | services/youtubeService.ts:155-181 | One finished record per collected video, in the same order. |
| Merging.MergeAllAppend | services/youtubeService.ts:155-181 | Merging a concatenation is concatenating the merges. |
| Merging.MergedFromItems | services/youtubeService.ts:155-157 | A finished record's counts and duration come from the last returned item with its id, or are defaults. Its subscribers come from the last channel item with its channel id, or are null. |
| Merging.ScoreExamples | services/youtubeService.ts:161-164 | 100000 views with 1000 subscribers score 10000. Null, 0 or NaN subscribers score 0. NaN views with subscribers score NaN. |
| Pipeline.FetchYouTubeData | services/youtubeService.ts:28-184 | The whole call equals the specification `Pipeline`: its outcome, every request, every batch and every report. |
| Pipeline.MissingKey | services/youtubeService.ts:34 | Without a key, the call fails with "API Key is required". It makes no request and sends no report. |
| Pipeline.RequestsFromTokens | services/youtubeService.ts:48-73 | Every search request is the page request built from the input and some token. |
| Pipeline.SearchRequests | services/youtubeService.ts:41-73 | A call with a key makes 1 to 4 search requests. The first has no `pageToken`, and each later one carries the token of the page before it. Report `k` is `current = 50k < total`. |
| Pipeline.ChannelMode | services/youtubeService.ts:54-70 | With a channel filter and no query, every search request carries the channel id and no `q`. |
| Pipeline.Failure | services/youtubeService.ts:75-79 | A failed call had a missing key or a failed last search response, whose message is the error. No statistics request is made. |
| Pipeline.Output | services/youtubeService.ts:83-99 | A successful call returns one record per collected record, in page order, with the same id, title, channel and URL; when every page holds at most `maxResults` items there are at most 200. Its search ended on an empty page, a missing token or the 4-page budget. |
| Pipeline.StageReports | services/youtubeService.ts:103-153 | A successful call ends with three stage reports, for video stats, channel stats and finalizing, each with current = total = the record count. |
| Pipeline.Batches | services/youtubeService.ts:105-135 | The video batches hold 1 to 50 ids, concatenate to the non-empty video ids and number ceil(N/50). The channel batches do the same for the distinct channel ids. |

## Left out

- Network and JSON. `fetch`, URL strings and `response.json()` are not modelled. The endpoints are functions from query parameters to already-decoded bodies. The search endpoint's non-ok status is the `SearchFailed` response.
- Parameter names. The parameters are a list of named values, and names are the enumeration `ParamName`. `Types.WireName` records each one's text in the URL; nothing in the model depends on the text, so no property is stated about it.
- `async`/`await`. The steps run in sequence, so the model is sequential.
- Progress log. Reports and requests are kept in separate logs.
  - For the search, report `k` precedes request `k`.
  - Between the three stage reports and the statistics requests, the order is not recorded in one stream.
  - The report status is the `Phase` datatype instead of the status text.
- Merging.ViralScore: the score is an exact real `views / subs * 100`. IEEE floating point and `parseFloat(viralScore.toFixed(2))` rounding are not modelled.
- Numbers.ParseInt: models `parseInt` on the decimal digits at the start of the text. Leading whitespace, a sign, and the loss of precision above 2^53 are not modelled.
- Dates. `new Date(filters.publishedAfter).toISOString()` is the function `isoDate` of the input, because it depends on a date library. `toISOString` throws a `RangeError` on an invalid date; that throw is not modelled, and the model treats every non-empty `publishedAfter` as a valid date.
- Status checks on the other endpoints. The statistics and channel search endpoints are not checked for `res.ok`, as in the source. An error body has no item list, which the model treats as no items (`None`).
- `thumbnail`. The program types it as a string but can produce `undefined`, so the model keeps it as `Option<string>`.
- Other code. The React application (`App.tsx`), the card and key-input components and the build configuration are not part of this model.
  - `App.tsx` holds the sorting, the progress-text translation and the date helper.
  - The card component calls a text-generation library.
