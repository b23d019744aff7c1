/** The statistics and channel statistics steps: id lists, batched requests, and the maps
    built from the answers. */
module Enrichment {
  import opened Wrappers
  import opened Types
  import opened Numbers
  import opened Seqs
  import opened Chunking

  /** Statistics of one video as kept in the video statistics map. */
  datatype VideoStats = VideoStats(viewCount: JsCount, likeCount: JsCount, duration: string)

  // Id lists.

  /** `allVideos.map(v => v.id).filter(id => !!id)`. */
  function VideoIds(videos: seq<PartialVideo>): seq<string>
  {
    PresentIds(seq(|videos|, i requires 0 <= i < |videos| => videos[i].id))
  }

  /** `Array.from(new Set(allVideos.map(v => v.channelId).filter(id => !!id)))`. */
  function ChannelIds(videos: seq<PartialVideo>): seq<string>
  {
    Dedup(PresentIds(seq(|videos|, i requires 0 <= i < |videos| => videos[i].channelId)))
  }

  /** The video id list holds the non-empty ids of the videos, in order and no others. */
  lemma VideoIdsContent(videos: seq<PartialVideo>)
    ensures |VideoIds(videos)| <= |videos|
    ensures forall x :: x in VideoIds(videos) <==> x != "" && exists i :: 0 <= i < |videos| && videos[i].id == x
    ensures (forall i :: 0 <= i < |videos| ==> videos[i].id != "") ==>
      && |VideoIds(videos)| == |videos|
      && forall i :: 0 <= i < |videos| ==> VideoIds(videos)[i] == videos[i].id
  {
    var ids := seq(|videos|, i requires 0 <= i < |videos| => videos[i].id);
    forall x ensures x in ids <==> exists i :: 0 <= i < |videos| && videos[i].id == x {
      if x in ids {
        var i :| 0 <= i < |ids| && ids[i] == x;
        assert videos[i].id == x;
      }
      if exists i :: 0 <= i < |videos| && videos[i].id == x {
        var i :| 0 <= i < |videos| && videos[i].id == x;
        assert ids[i] == x;
      }
    }
  }

  /** The video ids of two lists of videos one after the other are the ids of the first list
      followed by those of the second: the ids of the pages keep page order and repeats. */
  lemma VideoIdsAppend(a: seq<PartialVideo>, b: seq<PartialVideo>)
    ensures VideoIds(a + b) == VideoIds(a) + VideoIds(b)
  {
    var ia := seq(|a|, i requires 0 <= i < |a| => a[i].id);
    var ib := seq(|b|, i requires 0 <= i < |b| => b[i].id);
    assert seq(|a + b|, i requires 0 <= i < |a + b| => (a + b)[i].id) == ia + ib;
    PresentIdsAppend(ia, ib);
  }

  /** The channel id list holds each non-empty channel id of the videos exactly once. */
  lemma ChannelIdsContent(videos: seq<PartialVideo>)
    ensures Distinct(ChannelIds(videos))
    ensures |ChannelIds(videos)| <= |videos|
    ensures forall x :: x in ChannelIds(videos) <==> x != "" && exists i :: 0 <= i < |videos| && videos[i].channelId == x
  {
    var ids := seq(|videos|, i requires 0 <= i < |videos| => videos[i].channelId);
    forall x ensures x in ids <==> exists i :: 0 <= i < |videos| && videos[i].channelId == x {
      if x in ids {
        var i :| 0 <= i < |ids| && ids[i] == x;
        assert videos[i].channelId == x;
      }
      if exists i :: 0 <= i < |videos| && videos[i].channelId == x {
        var i :| 0 <= i < |videos| && videos[i].channelId == x;
        assert ids[i] == x;
      }
    }
  }

  // Maps filled by successive `Map.set`.

  /** The map left by `m.set(keyOf(item), valueOf(item))` for each item in order. */
  function SetAll<T, V>(m: map<string, V>, items: seq<T>, keyOf: T -> string, valueOf: T -> V): map<string, V>
  {
    if items == [] then m
    else SetAll(m, items[..|items| - 1], keyOf, valueOf)[keyOf(items[|items| - 1]) := valueOf(items[|items| - 1])]
  }

  /** Setting the items of `a` and then those of `b` is setting those of `a + b`. */
  lemma {:induction false} SetAllAppend<T, V>(m: map<string, V>, a: seq<T>, b: seq<T>, keyOf: T -> string, valueOf: T -> V)
    ensures SetAll(SetAll(m, a, keyOf, valueOf), b, keyOf, valueOf) == SetAll(m, a + b, keyOf, valueOf)
  {
    if b == [] {
      assert a + b == a;
    } else {
      SetAllAppend(m, a, b[..|b| - 1], keyOf, valueOf);
      assert (a + b)[..|a + b| - 1] == a + b[..|b| - 1];
    }
  }

  /** The map built from empty by the items. */
  function IndexBy<T, V>(items: seq<T>, keyOf: T -> string, valueOf: T -> V): map<string, V>
  {
    SetAll(map[], items, keyOf, valueOf)
  }

  /** Some item has key `k`. */
  ghost predicate HasKey<T>(items: seq<T>, keyOf: T -> string, k: string)
  {
    exists i :: 0 <= i < |items| && keyOf(items[i]) == k
  }

  /** The map has an entry for exactly the keys of the items. */
  lemma {:induction false} IndexByKeys<T, V>(items: seq<T>, keyOf: T -> string, valueOf: T -> V)
    ensures forall k :: k in IndexBy(items, keyOf, valueOf) <==> HasKey(items, keyOf, k)
  {
    if items != [] {
      var p := items[..|items| - 1];
      IndexByKeys(p, keyOf, valueOf);
      forall k ensures HasKey(items, keyOf, k) <==> HasKey(p, keyOf, k) || keyOf(items[|items| - 1]) == k
      {
        if exists i :: 0 <= i < |items| && keyOf(items[i]) == k {
          var i :| 0 <= i < |items| && keyOf(items[i]) == k;
          if i < |p| {
            assert keyOf(p[i]) == k;
          }
        }
        if exists i :: 0 <= i < |p| && keyOf(p[i]) == k {
          var i :| 0 <= i < |p| && keyOf(p[i]) == k;
          assert keyOf(items[i]) == k;
        }
      }
    }
  }

  /** When a key occurs more than once, the last item with that key wins. */
  lemma {:induction false} IndexByLastWins<T, V>(items: seq<T>, keyOf: T -> string, valueOf: T -> V, i: nat)
    requires i < |items|
    requires forall j :: i < j < |items| ==> keyOf(items[j]) != keyOf(items[i])
    ensures keyOf(items[i]) in IndexBy(items, keyOf, valueOf)
    ensures IndexBy(items, keyOf, valueOf)[keyOf(items[i])] == valueOf(items[i])
  {
    if i < |items| - 1 {
      var p := items[..|items| - 1];
      assert p[i] == items[i];
      IndexByLastWins(p, keyOf, valueOf, i);
      assert IndexBy(items, keyOf, valueOf) == IndexBy(p, keyOf, valueOf)[keyOf(items[|items| - 1]) := valueOf(items[|items| - 1])];
    }
  }

  function ItemId(item: VideoDetailsItem): string
  {
    item.id
  }

  function ChannelItemId(item: ChannelDetailsItem): string
  {
    item.id
  }

  /** `{viewCount: parseInt(viewCount || '0'), likeCount: parseInt(likeCount || '0'), duration}`. */
  function VideoStatsOf(item: VideoDetailsItem): VideoStats
  {
    VideoStats(ParseCount(item.viewCount), ParseCount(item.likeCount), item.duration)
  }

  /** `hiddenSubscriberCount ? null : parseInt(subscriberCount || '0')`. */
  function SubscribersOf(item: ChannelDetailsItem): Option<JsCount>
  {
    if item.hiddenSubscriberCount then None else Some(ParseCount(item.subscriberCount))
  }

  /** The subscriber entry of a channel item: null when hidden; otherwise 0 when the count is
      missing or empty, and `n` when it is the decimal text of `n`. */
  lemma SubscribersOfCases(item: ChannelDetailsItem, n: nat)
    ensures item.hiddenSubscriberCount <==> SubscribersOf(item).None?
    ensures !item.hiddenSubscriberCount && (item.subscriberCount.None? || item.subscriberCount.value == "")
      ==> SubscribersOf(item) == Some(Count(0))
    ensures !item.hiddenSubscriberCount && item.subscriberCount == Some(NatToDecimal(n))
      ==> SubscribersOf(item) == Some(Count(n))
  {
    ParseCountCases(item.subscriberCount, n);
  }

  /** The statistics entry of a video item: a missing or empty count is 0, the decimal text of
      `n` is `n`, and the duration is copied. */
  lemma VideoStatsOfCases(item: VideoDetailsItem, views: nat, likes: nat)
    ensures item.viewCount.None? || item.viewCount.value == "" ==> VideoStatsOf(item).viewCount == Count(0)
    ensures item.likeCount.None? || item.likeCount.value == "" ==> VideoStatsOf(item).likeCount == Count(0)
    ensures item.viewCount == Some(NatToDecimal(views)) ==> VideoStatsOf(item).viewCount == Count(views)
    ensures item.likeCount == Some(NatToDecimal(likes)) ==> VideoStatsOf(item).likeCount == Count(likes)
    ensures VideoStatsOf(item).duration == item.duration
  {
    ParseCountCases(item.viewCount, views);
    ParseCountCases(item.likeCount, likes);
  }

  // Requests.

  /** `chunk.join(sep)`. */
  function Join(ids: seq<string>, sep: string): string
  {
    if ids == [] then "" else if |ids| == 1 then ids[0] else ids[0] + sep + Join(ids[1..], sep)
  }

  function VideoStatsParams(batch: seq<string>, apiKey: string): Params
  {
    Append(Append(Append([], Part, "statistics,contentDetails"), Id, Join(batch, ",")), Key, apiKey)
  }

  function ChannelStatsParams(batch: seq<string>, apiKey: string): Params
  {
    Append(Append(Append([], Part, "statistics"), Id, Join(batch, ",")), Key, apiKey)
  }

  /** A statistics request carries the batch's ids joined by commas as `id` and the key; the
      video request asks for statistics and content details, the channel request for statistics
      only; neither sends a query, an order, a filter or a token. */
  lemma StatsParamsContent(batch: seq<string>, apiKey: string, x: ParamName)
    ensures Lookup(VideoStatsParams(batch, apiKey), x)
      == match x
         case Part => Some("statistics,contentDetails")
         case Id => Some(Join(batch, ","))
         case Key => Some(apiKey)
         case _ => None
    ensures Lookup(ChannelStatsParams(batch, apiKey), x)
      == match x
         case Part => Some("statistics")
         case Id => Some(Join(batch, ","))
         case Key => Some(apiKey)
         case _ => None
  {
    var v1 := Append([], Part, "statistics,contentDetails");
    var v2 := Append(v1, Id, Join(batch, ","));
    LookupAfterAppend([], true, Part, "statistics,contentDetails", x);
    LookupAfterAppend(v1, true, Id, Join(batch, ","), x);
    LookupAfterAppend(v2, true, Key, apiKey, x);
    var c1 := Append([], Part, "statistics");
    var c2 := Append(c1, Id, Join(batch, ","));
    LookupAfterAppend([], true, Part, "statistics", x);
    LookupAfterAppend(c1, true, Id, Join(batch, ","), x);
    LookupAfterAppend(c2, true, Key, apiKey, x);
  }

  /** `data.items ?? []`: a body without an item list contributes nothing. */
  function ItemsOr<T>(items: Option<seq<T>>): seq<T>
  {
    if items.Some? then items.value else []
  }

  /** All video items received for the batches, in request order. */
  function ReceivedVideoItems(videos: Params -> Option<seq<VideoDetailsItem>>, apiKey: string, batches: seq<seq<string>>): seq<VideoDetailsItem>
  {
    if batches == [] then []
    else
      ReceivedVideoItems(videos, apiKey, batches[..|batches| - 1])
      + ItemsOr(videos(VideoStatsParams(batches[|batches| - 1], apiKey)))
  }

  /** All channel items received for the batches, in request order. */
  function ReceivedChannelItems(channels: Params -> Option<seq<ChannelDetailsItem>>, apiKey: string, batches: seq<seq<string>>): seq<ChannelDetailsItem>
  {
    if batches == [] then []
    else
      ReceivedChannelItems(channels, apiKey, batches[..|batches| - 1])
      + ItemsOr(channels(ChannelStatsParams(batches[|batches| - 1], apiKey)))
  }

  lemma ReceivedVideoItemsStep(videos: Params -> Option<seq<VideoDetailsItem>>, apiKey: string, batches: seq<seq<string>>, batch: seq<string>)
    ensures ReceivedVideoItems(videos, apiKey, batches + [batch])
      == ReceivedVideoItems(videos, apiKey, batches) + ItemsOr(videos(VideoStatsParams(batch, apiKey)))
  {
    assert (batches + [batch])[..|batches|] == batches;
  }

  lemma ReceivedChannelItemsStep(channels: Params -> Option<seq<ChannelDetailsItem>>, apiKey: string, batches: seq<seq<string>>, batch: seq<string>)
    ensures ReceivedChannelItems(channels, apiKey, batches + [batch])
      == ReceivedChannelItems(channels, apiKey, batches) + ItemsOr(channels(ChannelStatsParams(batch, apiKey)))
  {
    assert (batches + [batch])[..|batches|] == batches;
  }

  /** The batches still to be sent once the loop index has reached `i`. */
  function ChunksFrom(ids: seq<string>, i: nat): seq<seq<string>>
  {
    if i < |ids| then Chunks(ids[i..], ID_BATCH_SIZE) else []
  }

  /** `ids.slice(i, i + 50)`. */
  function Slice(ids: seq<string>, i: nat): seq<string>
    requires i < |ids|
  {
    ids[i..if i + ID_BATCH_SIZE < |ids| then i + ID_BATCH_SIZE else |ids|]
  }

  lemma ChunksFromStep(ids: seq<string>, i: nat)
    requires i < |ids|
    ensures ChunksFrom(ids, i) == [Slice(ids, i)] + ChunksFrom(ids, i + ID_BATCH_SIZE)
  {
    var rest := ids[i..];
    if |rest| > ID_BATCH_SIZE {
      assert rest[..ID_BATCH_SIZE] == ids[i..i + ID_BATCH_SIZE];
      assert rest[ID_BATCH_SIZE..] == ids[i + ID_BATCH_SIZE..];
    } else {
      assert rest == ids[i..|ids|];
      assert Chunks(rest, ID_BATCH_SIZE) == [rest];
    }
  }

  /** `data.items?.forEach(item => videoStatsMap.set(item.id, ...))`. */
  method RecordVideoItems(videoStatsMap: map<string, VideoStats>, items: seq<VideoDetailsItem>)
    returns (updated: map<string, VideoStats>)
    ensures updated == SetAll(videoStatsMap, items, ItemId, VideoStatsOf)
  {
    updated := videoStatsMap;
    var j := 0;
    while j < |items|
      invariant j <= |items|
      invariant updated == SetAll(videoStatsMap, items[..j], ItemId, VideoStatsOf)
    {
      assert items[..j + 1][..j] == items[..j];
      updated := updated[items[j].id := VideoStatsOf(items[j])];
      j := j + 1;
    }
    assert items[..j] == items;
  }

  /** `data.items?.forEach(item => channelStatsMap.set(item.id, subs))`. */
  method RecordChannelItems(channelStatsMap: map<string, Option<JsCount>>, items: seq<ChannelDetailsItem>)
    returns (updated: map<string, Option<JsCount>>)
    ensures updated == SetAll(channelStatsMap, items, ChannelItemId, SubscribersOf)
  {
    updated := channelStatsMap;
    var j := 0;
    while j < |items|
      invariant j <= |items|
      invariant updated == SetAll(channelStatsMap, items[..j], ChannelItemId, SubscribersOf)
    {
      assert items[..j + 1][..j] == items[..j];
      var subs := if items[j].hiddenSubscriberCount then None else Some(ParseCount(items[j].subscriberCount));
      updated := updated[items[j].id := subs];
      j := j + 1;
    }
    assert items[..j] == items;
  }

  /** One more batch sent: the batches sent and those still to send still make up all of them. */
  lemma BatchStep(ids: seq<string>, i: nat, batches: seq<seq<string>>)
    requires i < |ids|
    requires batches + ChunksFrom(ids, i) == Chunks(ids, ID_BATCH_SIZE)
    ensures (batches + [Slice(ids, i)]) + ChunksFrom(ids, i + ID_BATCH_SIZE) == Chunks(ids, ID_BATCH_SIZE)
  {
    ChunksFromStep(ids, i);
    assert (batches + [Slice(ids, i)]) + ChunksFrom(ids, i + ID_BATCH_SIZE)
      == batches + ([Slice(ids, i)] + ChunksFrom(ids, i + ID_BATCH_SIZE));
  }

  /** The statistics loop: one request per batch of at most 50 ids, each returned item
      recorded in the map under its id. */
  method FetchVideoStats(videos: Params -> Option<seq<VideoDetailsItem>>, apiKey: string, videoIds: seq<string>)
    returns (videoStatsMap: map<string, VideoStats>, batches: seq<seq<string>>)
    ensures batches == Chunks(videoIds, ID_BATCH_SIZE)
    ensures videoStatsMap == IndexBy(ReceivedVideoItems(videos, apiKey, batches), ItemId, VideoStatsOf)
  {
    videoStatsMap := map[];
    batches := [];
    ghost var received: seq<VideoDetailsItem> := [];
    var i := 0;
    while i < |videoIds|
      invariant batches + ChunksFrom(videoIds, i) == Chunks(videoIds, ID_BATCH_SIZE)
      invariant received == ReceivedVideoItems(videos, apiKey, batches)
      invariant videoStatsMap == IndexBy(received, ItemId, VideoStatsOf)
      decreases |videoIds| - i
    {
      var chunk := Slice(videoIds, i);
      BatchStep(videoIds, i, batches);
      var items := ItemsOr(videos(VideoStatsParams(chunk, apiKey)));
      videoStatsMap := RecordVideoItems(videoStatsMap, items);
      SetAllAppend(map[], received, items, ItemId, VideoStatsOf);
      ReceivedVideoItemsStep(videos, apiKey, batches, chunk);
      batches := batches + [chunk];
      received := received + items;
      i := i + ID_BATCH_SIZE;
    }
    assert batches + [] == batches;
  }

  /** The channel statistics loop: one request per batch of at most 50 channel ids, each
      returned item recorded in the map under its id, hidden counts as null. */
  method FetchChannelStats(channels: Params -> Option<seq<ChannelDetailsItem>>, apiKey: string, channelIds: seq<string>)
    returns (channelStatsMap: map<string, Option<JsCount>>, batches: seq<seq<string>>)
    ensures batches == Chunks(channelIds, ID_BATCH_SIZE)
    ensures channelStatsMap == IndexBy(ReceivedChannelItems(channels, apiKey, batches), ChannelItemId, SubscribersOf)
  {
    channelStatsMap := map[];
    batches := [];
    ghost var received: seq<ChannelDetailsItem> := [];
    var i := 0;
    while i < |channelIds|
      invariant batches + ChunksFrom(channelIds, i) == Chunks(channelIds, ID_BATCH_SIZE)
      invariant received == ReceivedChannelItems(channels, apiKey, batches)
      invariant channelStatsMap == IndexBy(received, ChannelItemId, SubscribersOf)
      decreases |channelIds| - i
    {
      var chunk := Slice(channelIds, i);
      BatchStep(channelIds, i, batches);
      var items := ItemsOr(channels(ChannelStatsParams(chunk, apiKey)));
      channelStatsMap := RecordChannelItems(channelStatsMap, items);
      SetAllAppend(map[], received, items, ChannelItemId, SubscribersOf);
      ReceivedChannelItemsStep(channels, apiKey, batches, chunk);
      batches := batches + [chunk];
      received := received + items;
      i := i + ID_BATCH_SIZE;
    }
    assert batches + [] == batches;
  }
}
