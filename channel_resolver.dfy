/** Resolving a channel name or handle to a channel through the channel search. */
module ChannelResolver {
  import opened Wrappers
  import opened Types

  /** The channel a name resolves to; `thumbnail` is the default thumbnail URL, if any. */
  datatype ChannelInfo = ChannelInfo(id: string, title: string, thumbnail: Option<string>)

  /** The parameters of the channel search: one channel matching `query`. */
  function ResolveParams(apiKey: string, query: string): Params
  {
    Append(Append(Append(Append(Append([], Part, "snippet"), Q, query), Type, "channel"), MaxResults, "1"), Key, apiKey)
  }

  /** The channel search sends the query as `q`, asks for channels only and for a single
      result, and carries the key; it sends no order, filter or token. */
  lemma ResolveParamsContent(apiKey: string, query: string, x: ParamName)
    ensures Lookup(ResolveParams(apiKey, query), x)
      == match x
         case Part => Some("snippet")
         case Q => Some(query)
         case Type => Some("channel")
         case MaxResults => Some("1")
         case Key => Some(apiKey)
         case _ => None
  {
    var p1 := Append([], Part, "snippet");
    var p2 := Append(p1, Q, query);
    var p3 := Append(p2, Type, "channel");
    var p4 := Append(p3, MaxResults, "1");
    LookupAfterAppend([], true, Part, "snippet", x);
    LookupAfterAppend(p1, true, Q, query, x);
    LookupAfterAppend(p2, true, Type, "channel", x);
    LookupAfterAppend(p3, true, MaxResults, "1", x);
    LookupAfterAppend(p4, true, Key, apiKey, x);
  }

  /** The first item of the answer, or None when it has no items. */
  function FirstChannel(items: Option<seq<ChannelSearchItem>>): Option<ChannelInfo>
  {
    if items.Some? && |items.value| > 0 then
      Some(ChannelInfo(items.value[0].channelId, items.value[0].title, items.value[0].defaultUrl))
    else
      None
  }

  /** Asks the channel search for one channel matching `query` and takes the first answer: a
      channel is found exactly when the answer has an item, and it is the first item; an answer
      with no item list or an empty one gives null. */
  function ResolveChannelId(api: Api, apiKey: string, query: string): (r: Option<ChannelInfo>)
    ensures var answer := api.channelSearch(ResolveParams(apiKey, query));
      && (r.Some? <==> answer.Some? && |answer.value| > 0)
      && (r.Some? ==>
            && r.value.id == answer.value[0].channelId
            && r.value.title == answer.value[0].title
            && r.value.thumbnail == answer.value[0].defaultUrl)
  {
    FirstChannel(api.channelSearch(ResolveParams(apiKey, query)))
  }
}
