/** The last step: each collected video joined with its statistics and its channel's
    subscriber count, and scored. */
module Merging {
  import opened Wrappers
  import opened Types
  import opened Enrichment

  /** `{ viewCount: 0, likeCount: 0, duration: '' }`, used for a video the statistics missed. */
  const DEFAULT_STATS: VideoStats := VideoStats(Count(0), Count(0), "")

  /** Subscribers count for the score only when they are a number above zero (`subs && subs > 0`):
      null, NaN and 0 are all falsy. */
  predicate PositiveSubscribers(subs: Option<JsCount>)
  {
    subs.Some? && subs.value.Count? && subs.value.n > 0
  }

  /** Views per subscriber, as a percentage, or 0 when the subscribers do not count. The score is
      the ratio for which `score * subs == views * 100`; it is never negative, and it is NaN
      exactly when the subscribers count and the views are NaN. No division by zero happens. */
  function ViralScore(views: JsCount, subs: Option<JsCount>): (s: JsScore)
    ensures !PositiveSubscribers(subs) ==> s == Score(0.0)
    ensures PositiveSubscribers(subs) ==> (s.ScoreNaN? <==> views.NaN?)
    ensures PositiveSubscribers(subs) && s.Score? ==>
      s.r * (subs.value.n as real) == (views.n as real) * 100.0 && s.r >= 0.0
  {
    if PositiveSubscribers(subs) then
      if views.NaN? then ScoreNaN else Score((views.n as real) / (subs.value.n as real) * 100.0)
    else
      Score(0.0)
  }

  /** `videoStatsMap.get(v.id) || default`: a stored entry is an object, so never falsy. */
  function StatsFor(videoStatsMap: map<string, VideoStats>, id: string): VideoStats
  {
    if id in videoStatsMap then videoStatsMap[id] else DEFAULT_STATS
  }

  /** `channelStatsMap.get(v.channelId) ?? null`. */
  function SubscribersFor(channelStatsMap: map<string, Option<JsCount>>, channelId: string): Option<JsCount>
  {
    if channelId in channelStatsMap then channelStatsMap[channelId] else None
  }

  /** One finished record: the partial record's fields, the video's statistics or zeros and an
      empty duration when there are none, its channel's subscribers or null when the channel is
      unknown, no comments, and the score of those views and subscribers. */
  function MergeVideo(v: PartialVideo, videoStatsMap: map<string, VideoStats>,
                      channelStatsMap: map<string, Option<JsCount>>): (o: YouTubeVideo)
    ensures o.id == v.id && o.title == v.title && o.thumbnail == v.thumbnail
    ensures o.publishedAt == v.publishedAt && o.channelId == v.channelId
    ensures o.channelTitle == v.channelTitle && o.videoUrl == v.videoUrl
    ensures v.id in videoStatsMap ==>
      && o.viewCount == videoStatsMap[v.id].viewCount
      && o.likeCount == videoStatsMap[v.id].likeCount
      && o.duration == videoStatsMap[v.id].duration
    ensures v.id !in videoStatsMap ==> o.viewCount == Count(0) && o.likeCount == Count(0) && o.duration == ""
    ensures v.channelId in channelStatsMap ==> o.subscriberCount == channelStatsMap[v.channelId]
    ensures v.channelId !in channelStatsMap ==> o.subscriberCount.None?
    ensures o.commentCount == 0
    ensures !PositiveSubscribers(o.subscriberCount) ==> o.viralScore == Score(0.0)
    ensures o.viralScore == ViralScore(o.viewCount, o.subscriberCount)
  {
    var stats := StatsFor(videoStatsMap, v.id);
    var subs := SubscribersFor(channelStatsMap, v.channelId);
    YouTubeVideo(
      v.id, v.title, v.thumbnail, v.publishedAt, v.channelId, v.channelTitle,
      stats.viewCount, stats.likeCount, 0, subs,
      ViralScore(stats.viewCount, subs),
      stats.duration, v.videoUrl)
  }

  /** `allVideos.map(...)`: one finished record per collected video, in the same order. */
  function MergeAll(videos: seq<PartialVideo>, videoStatsMap: map<string, VideoStats>,
                    channelStatsMap: map<string, Option<JsCount>>): (out: seq<YouTubeVideo>)
    ensures |out| == |videos|
    ensures forall i :: 0 <= i < |videos| ==> out[i] == MergeVideo(videos[i], videoStatsMap, channelStatsMap)
  {
    seq(|videos|, i requires 0 <= i < |videos| => MergeVideo(videos[i], videoStatsMap, channelStatsMap))
  }

  /** Merging works record by record: merging two lists one after the other is merging their
      concatenation, so the pages of a search can be merged one at a time. */
  lemma MergeAllAppend(a: seq<PartialVideo>, b: seq<PartialVideo>, videoStatsMap: map<string, VideoStats>,
                       channelStatsMap: map<string, Option<JsCount>>)
    ensures MergeAll(a + b, videoStatsMap, channelStatsMap)
      == MergeAll(a, videoStatsMap, channelStatsMap) + MergeAll(b, videoStatsMap, channelStatsMap)
  {
    var l := MergeAll(a + b, videoStatsMap, channelStatsMap);
    var r := MergeAll(a, videoStatsMap, channelStatsMap) + MergeAll(b, videoStatsMap, channelStatsMap);
    forall i | 0 <= i < |l|
      ensures l[i] == r[i]
    {
      if i >= |a| {
        assert (a + b)[i] == b[i - |a|];
      }
    }
  }

  /** Where a finished record's statistics come from, when the maps are filled from the items
      the endpoints returned: the last video item with its id, parsed; zeros and an empty
      duration when no item had its id. Its subscribers are those of the last channel item with
      its channel id, null when hidden or when no item had that id. */
  lemma {:induction false} MergedFromItems(videos: seq<PartialVideo>, items: seq<VideoDetailsItem>,
                                           channelItems: seq<ChannelDetailsItem>, i: nat)
    requires i < |videos|
    ensures var o := MergeAll(videos, IndexBy(items, ItemId, VideoStatsOf),
                              IndexBy(channelItems, ChannelItemId, SubscribersOf))[i];
      && (forall j :: (0 <= j < |items| && items[j].id == o.id
                       && (forall l :: j < l < |items| ==> items[l].id != o.id)) ==>
            && o.viewCount == VideoStatsOf(items[j]).viewCount
            && o.likeCount == VideoStatsOf(items[j]).likeCount
            && o.duration == items[j].duration)
      && ((forall j :: 0 <= j < |items| ==> items[j].id != o.id) ==>
            o.viewCount == Count(0) && o.likeCount == Count(0) && o.duration == "")
      && (forall j :: (0 <= j < |channelItems| && channelItems[j].id == o.channelId
                       && (forall l :: j < l < |channelItems| ==> channelItems[l].id != o.channelId)) ==>
            o.subscriberCount == SubscribersOf(channelItems[j]))
      && ((forall j :: 0 <= j < |channelItems| ==> channelItems[j].id != o.channelId) ==>
            o.subscriberCount.None?)
  {
    var statsMap := IndexBy(items, ItemId, VideoStatsOf);
    var channelMap := IndexBy(channelItems, ChannelItemId, SubscribersOf);
    var o := MergeAll(videos, statsMap, channelMap)[i];
    IndexByKeys(items, ItemId, VideoStatsOf);
    IndexByKeys(channelItems, ChannelItemId, SubscribersOf);
    forall j | 0 <= j < |items| && items[j].id == o.id && (forall l :: j < l < |items| ==> items[l].id != o.id)
      ensures o.viewCount == VideoStatsOf(items[j]).viewCount
      ensures o.likeCount == VideoStatsOf(items[j]).likeCount
      ensures o.duration == items[j].duration
    {
      IndexByLastWins(items, ItemId, VideoStatsOf, j);
    }
    forall j | 0 <= j < |channelItems| && channelItems[j].id == o.channelId
        && (forall l :: j < l < |channelItems| ==> channelItems[l].id != o.channelId)
      ensures o.subscriberCount == SubscribersOf(channelItems[j])
    {
      IndexByLastWins(channelItems, ChannelItemId, SubscribersOf, j);
    }
    if forall j :: 0 <= j < |items| ==> items[j].id != o.id {
      assert !HasKey(items, ItemId, o.id);
    }
    if forall j :: 0 <= j < |channelItems| ==> channelItems[j].id != o.channelId {
      assert !HasKey(channelItems, ChannelItemId, o.channelId);
    }
  }

  /** A channel with 1000 subscribers and a video of 100000 views score 10000; a video whose
      channel hides its subscribers, or whose channel was not returned, scores 0. */
  lemma ScoreExamples()
    ensures ViralScore(Count(100000), Some(Count(1000))) == Score(10000.0)
    ensures ViralScore(Count(100000), None) == Score(0.0)
    ensures ViralScore(Count(5), Some(Count(0))) == Score(0.0)
    ensures ViralScore(NaN, Some(Count(10))) == ScoreNaN
    ensures ViralScore(Count(5), Some(NaN)) == Score(0.0)
  {
  }
}
