/**
 * The three YouTube Data API calls `search_youtube_videos` makes, reduced to
 * the fields it reads. The remote service is a set of oracle functions that
 * may fail; the client records every call it issues, so that the number and
 * the contents of the requests can be stated.
 */
module YouTubeApi {
  import opened Wrappers

  /** A statistics counter: absent, a numeral, or text `int()` rejects. */
  datatype Count = Missing | Numeral(n: nat) | Garbled

  /** `int(stats.get(key, 0))`: an absent counter is 0, a garbled one raises. */
  function CountValue(c: Count): (r: Option<nat>)
    ensures r.None? <==> c.Garbled?
    ensures c.Missing? ==> r == Some(0)
    ensures c.Numeral? ==> r == Some(c.n)
  {
    match c
    case Missing => Some(0)
    case Numeral(n) => Some(n)
    case Garbled => None
  }

  /**
   * A channel's `snippet.publishedAt`: absent or empty (falsy), a timestamp
   * `strptime` accepts (in microseconds), or one it rejects.
   */
  datatype ChannelDate = Undated | Dated(micros: int) | Unparseable

  /** One search hit; `videoId` is `item['id']['videoId']`. */
  datatype SearchItem = SearchItem(videoId: Option<string>)

  /**
   * A video's `snippet`; `publishedAt` is None when the key is absent or
   * `strptime` rejects it.
   */
  datatype VideoSnippet = VideoSnippet(
    channelId: Option<string>,
    channelTitle: Option<string>,
    title: Option<string>,
    thumbnail: Option<string>,
    publishedAt: Option<int>)

  /** One item of a `videos().list` reply; an absent `statistics` reads as Missing counters. */
  datatype VideoItem = VideoItem(id: Option<string>, snippet: Option<VideoSnippet>, viewCount: Count)

  /** One item of a `channels().list` reply. */
  datatype ChannelItem = ChannelItem(
    id: Option<string>,
    subscriberCount: Count,
    videoCount: Count,
    publishedAt: ChannelDate,
    thumbnail: Option<string>)

  /** `search().list` parameters that vary; part, type and order are fixed. */
  datatype SearchRequest = SearchRequest(q: string, maxResults: int, publishedAfter: Option<int>)

  /** A reply's `items` (an absent key reads as no items), or an exception. */
  datatype Reply<T> = Ok(items: seq<T>) | Failed

  datatype ApiCall =
    | SearchCall(request: SearchRequest)
    | VideosCall(ids: seq<string>)
    | ChannelsCall(ids: seq<string>)

  /** What the remote service answers, and whether `build()` succeeds. */
  datatype Endpoints = Endpoints(
    buildSucceeds: bool,
    search: SearchRequest -> Reply<SearchItem>,
    videos: seq<string> -> Reply<VideoItem>,
    channels: seq<string> -> Reply<ChannelItem>)

  /** The client object; `calls` lists the requests sent so far. */
  class Client {
    const endpoints: Endpoints
    var calls: seq<ApiCall>

    constructor(e: Endpoints)
      ensures endpoints == e && calls == []
    {
      endpoints := e;
      calls := [];
    }

    method Search(request: SearchRequest) returns (r: Reply<SearchItem>)
      modifies this
      ensures calls == old(calls) + [SearchCall(request)]
      ensures r == endpoints.search(request)
    {
      calls := calls + [SearchCall(request)];
      r := endpoints.search(request);
    }

    method Videos(ids: seq<string>) returns (r: Reply<VideoItem>)
      modifies this
      ensures calls == old(calls) + [VideosCall(ids)]
      ensures r == endpoints.videos(ids)
    {
      calls := calls + [VideosCall(ids)];
      r := endpoints.videos(ids);
    }

    method Channels(ids: seq<string>) returns (r: Reply<ChannelItem>)
      modifies this
      ensures calls == old(calls) + [ChannelsCall(ids)]
      ensures r == endpoints.channels(ids)
    {
      calls := calls + [ChannelsCall(ids)];
      r := endpoints.channels(ids);
    }
  }
}
