/**
 * `search_youtube_videos` (app/utils.py, lines 16-131): search, fetch video
 * statistics and channel statistics in slices of 50, join videos to their
 * channels, filter, score, classify, upsert one `Channel` row per video
 * processed and return the results. The functions below specify each stage;
 * the methods carry out the stages as the source does and are proved equal
 * to them.
 */
module Pipeline {
  import opened Wrappers
  import opened Scoring
  import opened Filters
  import opened NumberFormat
  import opened ChannelStore
  import opened YouTubeApi
  import opened Batching

  /** The parameters app/utils.py:16 declares, apart from the key. */
  datatype SearchArgs = SearchArgs(query: string, maxResults: int, publishedAfter: Option<int>, filters: Filters)

  /** One entry of `final_results`; dates stay timestamps. */
  datatype VideoResult = VideoResult(
    videoId: string,
    title: string,
    thumbnail: string,
    channelTitle: string,
    channelId: string,
    publishedAt: int,
    views: nat,
    formattedViews: string,
    subscribers: nat,
    formattedSubs: string,
    channelCreatedAt: Option<int>,
    opportunity: Tier,
    score: nat)

  datatype DropReason = NoChannel | Filtered | Malformed

  /**
   * What one pass of the per-video loop does: nothing (`continue`, or an
   * exception before `db.session.add`), a row write whose result is then
   * lost to an exception, or a row write and a result.
   */
  datatype VideoOutcome =
    | Dropped(reason: DropReason)
    | RowOnly(channelId: string, update: ChannelUpdate)
    | Emitted(channelId: string, update: ChannelUpdate, result: VideoResult)
  {
    predicate Writes() {
      !Dropped?
    }
  }

  // ---------------------------------------------------------------- search

  function RequestOf(a: SearchArgs): SearchRequest {
    SearchRequest(a.query, a.maxResults, a.publishedAfter)
  }

  /** `[item['id']['videoId'] for item in items]`; a missing key raises. */
  function VideoIds(items: seq<SearchItem>): (r: Option<seq<string>>)
    ensures r.Some? <==> forall k :: 0 <= k < |items| ==> items[k].videoId.Some?
    ensures r.Some? ==> |r.value| == |items|
    ensures r.Some? ==> forall k :: 0 <= k < |items| ==> r.value[k] == items[k].videoId.value
  {
    if forall k :: 0 <= k < |items| ==> items[k].videoId.Some?
    then Some(seq(|items|, k requires 0 <= k < |items| => items[k].videoId.value))
    else None
  }

  // --------------------------------------------------------------- fetching

  /** The calls a fetch stage issued and what it produced (None: it raised). */
  datatype Fetched<T> = Fetched(calls: seq<ApiCall>, value: Option<T>)

  function Prepend<T>(acc: seq<T>, rest: Option<seq<T>>): Option<seq<T>> {
    if rest.Some? then Some(acc + rest.value) else None
  }

  lemma PrependAssociates<T>(a: seq<T>, b: seq<T>, rest: Option<seq<T>>)
    ensures Prepend(a, Prepend(b, rest)) == Prepend(a + b, rest)
    ensures Prepend([], rest) == rest
  {
    if rest.Some? {
      assert a + (b + rest.value) == (a + b) + rest.value;
      assert [] + rest.value == rest.value;
    }
  }

  /** `f` preceded by the calls `sent` and, for a list, by the items `acc` already gathered. */
  function Extend<T>(sent: seq<ApiCall>, acc: seq<T>, f: Fetched<seq<T>>): Fetched<seq<T>> {
    Fetched(sent + f.calls, Prepend(acc, f.value))
  }

  function After<T>(sent: seq<ApiCall>, f: Fetched<T>): Fetched<T> {
    Fetched(sent + f.calls, f.value)
  }

  lemma ExtendExtend<T>(sent: seq<ApiCall>, acc: seq<T>, calls: seq<ApiCall>, items: seq<T>, f: Fetched<seq<T>>)
    ensures Extend(sent, acc, Extend(calls, items, f)) == Extend(sent + calls, acc + items, f)
  {
    PrependAssociates(acc, items, f.value);
    assert sent + (calls + f.calls) == (sent + calls) + f.calls;
  }

  lemma AfterAfter<T>(sent: seq<ApiCall>, calls: seq<ApiCall>, f: Fetched<T>)
    ensures After(sent, After(calls, f)) == After(sent + calls, f)
  {
    assert sent + (calls + f.calls) == (sent + calls) + f.calls;
  }

  /** The items of one video lookup; None when it raises. */
  function VideoSlice(e: Endpoints, ids: seq<string>, i: nat): Option<seq<VideoItem>>
    requires i < |ids|
  {
    match e.videos(Batch(ids, i))
    case Failed => None
    case Ok(items) => Some(items)
  }

  /** The video lookups for the slices starting at i, i + 50, ...: `video_items.extend` per reply. */
  function VideosFrom(e: Endpoints, ids: seq<string>, i: nat): Fetched<seq<VideoItem>>
    decreases |ids| - i
  {
    if i >= |ids| then Fetched([], Some([]))
    else
      var call := VideosCall(Batch(ids, i));
      match VideoSlice(e, ids, i)
      case None => Fetched([call], None)
      case Some(items) => Extend([call], items, VideosFrom(e, ids, i + BatchSize))
  }

  lemma VideosFromStep(e: Endpoints, ids: seq<string>, i: nat)
    requires i < |ids|
    ensures VideoSlice(e, ids, i).None? ==> VideosFrom(e, ids, i) == Fetched([VideosCall(Batch(ids, i))], None)
    ensures VideoSlice(e, ids, i).Some? ==>
      VideosFrom(e, ids, i) == Extend([VideosCall(Batch(ids, i))], VideoSlice(e, ids, i).value, VideosFrom(e, ids, i + BatchSize))
  {
  }

  /** `for c in items: channels_info[c['id']] = c`; a missing id raises. */
  function AddChannels(info: map<string, ChannelItem>, items: seq<ChannelItem>): Option<map<string, ChannelItem>>
    decreases |items|
  {
    if items == [] then Some(info)
    else if items[0].id.None? then None
    else AddChannels(info[items[0].id.value := items[0]], items[1..])
  }

  /** One channel lookup and its reply entered into `info`; None when either raises. */
  function ChannelSlice(e: Endpoints, ids: seq<string>, i: nat, info: map<string, ChannelItem>): Option<map<string, ChannelItem>>
    requires i < |ids|
  {
    match e.channels(Batch(ids, i))
    case Failed => None
    case Ok(items) => AddChannels(info, items)
  }

  /** The channel lookups for the slices starting at i, i + 50, ..., filling `info`. */
  function ChannelsFrom(e: Endpoints, ids: seq<string>, i: nat, info: map<string, ChannelItem>): Fetched<map<string, ChannelItem>>
    decreases |ids| - i
  {
    if i >= |ids| then Fetched([], Some(info))
    else
      var call := ChannelsCall(Batch(ids, i));
      match ChannelSlice(e, ids, i, info)
      case None => Fetched([call], None)
      case Some(info') =>
        var rest := ChannelsFrom(e, ids, i + BatchSize, info');
        Fetched([call] + rest.calls, rest.value)
  }

  function VideosCalls(bs: seq<seq<string>>): (r: seq<ApiCall>)
    ensures |r| == |bs|
  {
    seq(|bs|, k requires 0 <= k < |bs| => VideosCall(bs[k]))
  }

  function ChannelsCalls(bs: seq<seq<string>>): (r: seq<ApiCall>)
    ensures |r| == |bs|
  {
    seq(|bs|, k requires 0 <= k < |bs| => ChannelsCall(bs[k]))
  }

  // ---------------------------------------------------------- channel ids

  /**
   * `set([v['snippet']['channelId'] for v in video_items if 'snippet' in v])`:
   * the distinct channel ids of the videos that have a snippet; a snippet
   * without `channelId` raises.
   */
  function ChannelIdSet(vs: seq<VideoItem>): (r: Option<set<string>>)
    ensures r.Some? <==> forall v :: v in vs && v.snippet.Some? ==> v.snippet.value.channelId.Some?
    ensures r.Some? ==> forall c :: c in r.value <==>
      exists v :: v in vs && v.snippet.Some? && v.snippet.value.channelId == Some(c)
  {
    if exists v :: v in vs && v.snippet.Some? && v.snippet.value.channelId.None? then None
    else Some(set v | v in vs && v.snippet.Some? :: v.snippet.value.channelId.value)
  }

  predicate NoDuplicates<T(==)>(s: seq<T>) {
    forall a, b :: 0 <= a < b < |s| ==> s[a] != s[b]
  }

  // ------------------------------------------------------- per-video loop

  /** The video names a channel that was fetched (`c_data` is found). */
  predicate Joined(v: VideoItem, info: map<string, ChannelItem>) {
    v.snippet.Some? && v.snippet.value.channelId.Some? && v.snippet.value.channelId.value in info
  }

  /**
   * The video gets to `db.session.add`: its channel was fetched, the three
   * counters convert, the filters let it through and the channel's creation
   * date, if any, parses.
   */
  predicate ReachesAdd(v: VideoItem, info: map<string, ChannelItem>, f: Filters) {
    Joined(v, info) &&
    var c := info[v.snippet.value.channelId.value];
    && CountValue(v.viewCount).Some? && CountValue(c.subscriberCount).Some? && CountValue(c.videoCount).Some?
    && Passes(CountValue(v.viewCount).value, CountValue(c.subscriberCount).value, f)
    && !c.publishedAt.Unparseable?
  }

  /** `created_dt if c_created else None`. */
  function CreatedOf(c: ChannelItem): Option<int> {
    if c.publishedAt.Dated? then Some(c.publishedAt.micros) else None
  }

  /** The body of the `for v in video_items` loop for one video. */
  function Evaluate(v: VideoItem, info: map<string, ChannelItem>, f: Filters, now: int): (o: VideoOutcome)
    ensures o.Writes() <==> ReachesAdd(v, info, f)
    ensures !Joined(v, info) ==> o == Dropped(NoChannel)
    ensures o.Writes() ==>
      && v.snippet.Some? && v.snippet.value.channelId == Some(o.channelId) && o.channelId in info
      && var c := info[o.channelId];
      && o.update.title == v.snippet.value.channelTitle
      && o.update.thumbnail == c.thumbnail
      && CountValue(c.subscriberCount) == Some(o.update.subscribers)
      && CountValue(c.videoCount) == Some(o.update.videoCount)
      && o.update.createdAt == CreatedOf(c)
      && o.update.score == ScoreTenths(CountValue(v.viewCount).value, o.update.subscribers)
      && o.update.tier == TierOf(now, o.update.createdAt)
      && o.update.lastUpdated == now
    ensures o.Writes() ==> (o.Emitted? <==> v.id.Some? && v.snippet.value.publishedAt.Some?)
    ensures o.Emitted? ==>
      && v.id == Some(o.result.videoId)
      && v.snippet.value.publishedAt == Some(o.result.publishedAt)
      && o.result.channelId == o.channelId
      && o.result.channelTitle == v.snippet.value.channelTitle.GetOr("")
      && CountValue(v.viewCount) == Some(o.result.views)
      && o.result.subscribers == o.update.subscribers
      && o.result.channelCreatedAt == o.update.createdAt
      && o.result.score == o.update.score
      && o.result.opportunity == o.update.tier
      && o.result.formattedViews == FormatNumber(Int(o.result.views))
      && o.result.formattedSubs == FormatNumber(Int(o.result.subscribers))
  {
    if !Joined(v, info) then
      Dropped(NoChannel)
    else
      var sn := v.snippet.value;
      var cid := sn.channelId.value;
      var c := info[cid];
      var views := CountValue(v.viewCount);
      var subs := CountValue(c.subscriberCount);
      var videoCount := CountValue(c.videoCount);
      if views.None? || subs.None? || videoCount.None? then Dropped(Malformed)
      else if !Passes(views.value, subs.value, f) then Dropped(Filtered)
      else if c.publishedAt.Unparseable? then Dropped(Malformed)
      else
        var created := CreatedOf(c);
        var tier := TierOf(now, created);
        var score := ScoreTenths(views.value, subs.value);
        var update := ChannelUpdate(sn.channelTitle, c.thumbnail, subs.value, videoCount.value,
                                    created, score, tier, now);
        if v.id.None? || sn.publishedAt.None? then RowOnly(cid, update)
        else
          Emitted(cid, update, VideoResult(
            v.id.value, sn.title.GetOr(""), sn.thumbnail.GetOr(""), sn.channelTitle.GetOr(""), cid,
            sn.publishedAt.value, views.value, FormatNumber(Int(views.value)),
            subs.value, FormatNumber(Int(subs.value)), created, tier, score))
  }

  function EmittedResults(o: VideoOutcome): seq<VideoResult> {
    if o.Emitted? then [o.result] else []
  }

  function ApplyOutcome(rows: map<string, ChannelRow>, o: VideoOutcome): map<string, ChannelRow> {
    if o.Writes() then Upsert(rows, o.channelId, o.update) else rows
  }

  /** `final_results` after the loop has processed `vs`. */
  function Results(vs: seq<VideoItem>, info: map<string, ChannelItem>, f: Filters, now: int): seq<VideoResult>
  {
    if vs == [] then []
    else Results(vs[..|vs| - 1], info, f, now) + EmittedResults(Evaluate(vs[|vs| - 1], info, f, now))
  }

  /** The session's view of the `Channel` table after the loop has processed `vs`. */
  function Rows(vs: seq<VideoItem>, info: map<string, ChannelItem>, f: Filters, now: int,
                rows: map<string, ChannelRow>): map<string, ChannelRow>
  {
    if vs == [] then rows
    else ApplyOutcome(Rows(vs[..|vs| - 1], info, f, now, rows), Evaluate(vs[|vs| - 1], info, f, now))
  }

  /** One more video through the loop: its outcome is appended to the results and applied to the rows. */
  lemma ResultsRowsStep(vs: seq<VideoItem>, i: nat, info: map<string, ChannelItem>, f: Filters, now: int,
                        rows: map<string, ChannelRow>)
    requires i < |vs|
    ensures Results(vs[..i + 1], info, f, now)
            == Results(vs[..i], info, f, now) + EmittedResults(Evaluate(vs[i], info, f, now))
    ensures Rows(vs[..i + 1], info, f, now, rows)
            == ApplyOutcome(Rows(vs[..i], info, f, now, rows), Evaluate(vs[i], info, f, now))
  {
    assert vs[..i + 1][..i] == vs[..i];
  }

  // ------------------------------------------------------------ whole run

  /** The client can be built (`get_youtube_client` returns a client). */
  predicate ClientBuilt(e: Endpoints, apiKey: string) {
    apiKey != "" && e.buildSucceeds
  }

  /**
   * Everything up to and including the video lookups; None when the run
   * returns `[]` before reaching the channel ids.
   */
  function VideoStage(e: Endpoints, apiKey: string, a: SearchArgs): Fetched<seq<VideoItem>> {
    if !ClientBuilt(e, apiKey) then Fetched([], None)
    else
      var call := SearchCall(RequestOf(a));
      match e.search(RequestOf(a))
      case Failed => Fetched([call], None)
      case Ok(items) =>
        if items == [] then Fetched([call], None)
        else
          match VideoIds(items)
          case None => Fetched([call], None)
          case Some(ids) =>
            var fetched := VideosFrom(e, ids, 0);
            Fetched([call] + fetched.calls, fetched.value)
  }

  /** `channelOrder` lists the distinct channel ids of the fetched videos once each. */
  ghost predicate ChannelOrderFits(e: Endpoints, apiKey: string, a: SearchArgs, channelOrder: seq<string>) {
    var vs := VideoStage(e, apiKey, a).value;
    vs.Some? && ChannelIdSet(vs.value).Some? ==>
      NoDuplicates(channelOrder) && (set c | c in channelOrder) == ChannelIdSet(vs.value).value
  }

  /** What one call does: the requests sent, the list returned and the committed table. */
  datatype SearchRun = SearchRun(calls: seq<ApiCall>, results: seq<VideoResult>, rows: map<string, ChannelRow>)

  /**
   * The run when Python's set iteration puts the channel ids in the order
   * `channelOrder`. Any exception outside the per-video loop returns `[]`
   * with nothing committed.
   */
  function Run(e: Endpoints, apiKey: string, a: SearchArgs, channelOrder: seq<string>,
               rows: map<string, ChannelRow>, now: int): SearchRun
  {
    var videos := VideoStage(e, apiKey, a);
    if videos.value.None? || ChannelIdSet(videos.value.value).None? then SearchRun(videos.calls, [], rows)
    else
      var channels := ChannelsFrom(e, channelOrder, 0, map[]);
      if channels.value.None? then SearchRun(videos.calls + channels.calls, [], rows)
      else
        var vs, info := videos.value.value, channels.value.value;
        SearchRun(videos.calls + channels.calls, Results(vs, info, a.filters, now), Rows(vs, info, a.filters, now, rows))
  }

  // --------------------------------------------------------------- methods

  /** Lines 43-47 for one slice: the lookup and its reply. */
  method FetchVideoSlice(client: Client, ids: seq<string>, i: nat) returns (reply: Reply<VideoItem>)
    requires i < |ids|
    modifies client
    ensures client.calls == old(client.calls) + [VideosCall(Batch(ids, i))]
    ensures reply == client.endpoints.videos(Batch(ids, i))
  {
    var batch := ids[i..Min(i + BatchSize, |ids|)];
    reply := client.Videos(batch);
  }

  /** One more slice answered: the run so far plus the rest is still the whole fetch. */
  lemma VideosAdvance(e: Endpoints, ids: seq<string>, i: nat, whole: Fetched<seq<VideoItem>>,
                      sent: seq<ApiCall>, acc: seq<VideoItem>)
    requires i < |ids| && whole == Extend(sent, acc, VideosFrom(e, ids, i))
    ensures VideoSlice(e, ids, i).None? ==>
      whole.calls == sent + [VideosCall(Batch(ids, i))] && whole.value.None?
    ensures VideoSlice(e, ids, i).Some? ==>
      whole == Extend(sent + [VideosCall(Batch(ids, i))], acc + VideoSlice(e, ids, i).value, VideosFrom(e, ids, i + BatchSize))
  {
    VideosFromStep(e, ids, i);
    if VideoSlice(e, ids, i).Some? {
      ExtendExtend(sent, acc, [VideosCall(Batch(ids, i))], VideoSlice(e, ids, i).value, VideosFrom(e, ids, i + BatchSize));
    }
  }

  /** Lines 40-47: one `videos().list` call per slice; any exception ends the run. */
  method FetchVideoItems(client: Client, ids: seq<string>) returns (items: Option<seq<VideoItem>>)
    modifies client
    ensures var fetched := VideosFrom(client.endpoints, ids, 0);
      client.calls == old(client.calls) + fetched.calls && items == fetched.value
  {
    var e := client.endpoints;
    var videoItems: seq<VideoItem> := [];
    var i: nat := 0;
    ghost var sent: seq<ApiCall> := [];
    ghost var whole := VideosFrom(e, ids, 0);
    PrependAssociates(videoItems, videoItems, whole.value);
    assert whole == Extend(sent, videoItems, VideosFrom(e, ids, i));
    while i < |ids|
      invariant client.calls == old(client.calls) + sent
      invariant whole == Extend(sent, videoItems, VideosFrom(e, ids, i))
      decreases |ids| - i
    {
      var reply := FetchVideoSlice(client, ids, i);
      ghost var call := VideosCall(Batch(ids, i));
      VideosAdvance(e, ids, i, whole, sent, videoItems);
      sent := sent + [call];
      if reply.Failed? {
        return None;
      }
      videoItems := videoItems + reply.items;
      i := i + BatchSize;
    }
    assert VideosFrom(e, ids, i) == Fetched([], Some([]));
    assert videoItems + [] == videoItems && sent + [] == sent;
    return Some(videoItems);
  }

  /** Lines 53-59 for one slice: the lookup, then its items entered into `info`. */
  method FetchChannelSlice(client: Client, ids: seq<string>, i: nat, info: map<string, ChannelItem>)
    returns (next: Option<map<string, ChannelItem>>)
    requires i < |ids|
    modifies client
    ensures client.calls == old(client.calls) + [ChannelsCall(Batch(ids, i))]
    ensures next == ChannelSlice(client.endpoints, ids, i, info)
  {
    var batch := ids[i..Min(i + BatchSize, |ids|)];
    var reply := client.Channels(batch);
    if reply.Failed? {
      return None;
    }
    next := AddReplyChannels(info, reply.items);
  }

  /** Lines 51-59: one `channels().list` call per slice, each reply filling `channels_info`. */
  method FetchChannelInfo(client: Client, ids: seq<string>) returns (info: Option<map<string, ChannelItem>>)
    modifies client
    ensures var fetched := ChannelsFrom(client.endpoints, ids, 0, map[]);
      client.calls == old(client.calls) + fetched.calls && info == fetched.value
  {
    var e := client.endpoints;
    var channelsInfo: map<string, ChannelItem> := map[];
    var i: nat := 0;
    ghost var sent: seq<ApiCall> := [];
    ghost var whole := ChannelsFrom(e, ids, 0, map[]);
    assert whole == After(sent, ChannelsFrom(e, ids, i, channelsInfo));
    while i < |ids|
      invariant client.calls == old(client.calls) + sent
      invariant whole == After(sent, ChannelsFrom(e, ids, i, channelsInfo))
      decreases |ids| - i
    {
      var next := FetchChannelSlice(client, ids, i, channelsInfo);
      ghost var call := ChannelsCall(Batch(ids, i));
      ChannelsAdvance(e, ids, i, channelsInfo, whole, sent);
      sent := sent + [call];
      if next.None? {
        return None;
      }
      channelsInfo := next.value;
      i := i + BatchSize;
    }
    assert ChannelsFrom(e, ids, i, channelsInfo) == Fetched([], Some(channelsInfo));
    assert sent + [] == sent;
    return Some(channelsInfo);
  }

  /** One more slice answered: the run so far plus the rest is still the whole fetch. */
  lemma ChannelsAdvance(e: Endpoints, ids: seq<string>, i: nat, info: map<string, ChannelItem>,
                        whole: Fetched<map<string, ChannelItem>>, sent: seq<ApiCall>)
    requires i < |ids| && whole == After(sent, ChannelsFrom(e, ids, i, info))
    ensures ChannelSlice(e, ids, i, info).None? ==>
      whole.calls == sent + [ChannelsCall(Batch(ids, i))] && whole.value.None?
    ensures ChannelSlice(e, ids, i, info).Some? ==>
      whole == After(sent + [ChannelsCall(Batch(ids, i))], ChannelsFrom(e, ids, i + BatchSize, ChannelSlice(e, ids, i, info).value))
  {
    ChannelsFromStep(e, ids, i, info);
    if ChannelSlice(e, ids, i, info).Some? {
      AfterAfter(sent, [ChannelsCall(Batch(ids, i))], ChannelsFrom(e, ids, i + BatchSize, ChannelSlice(e, ids, i, info).value));
    }
  }

  lemma ChannelsFromStep(e: Endpoints, ids: seq<string>, i: nat, info: map<string, ChannelItem>)
    requires i < |ids|
    ensures ChannelSlice(e, ids, i, info).None? ==> ChannelsFrom(e, ids, i, info) == Fetched([ChannelsCall(Batch(ids, i))], None)
    ensures ChannelSlice(e, ids, i, info).Some? ==>
      ChannelsFrom(e, ids, i, info) == After([ChannelsCall(Batch(ids, i))], ChannelsFrom(e, ids, i + BatchSize, ChannelSlice(e, ids, i, info).value))
  {
  }

  /** Lines 58-59 for one reply: `channels_info[c['id']] = c` per item. */
  method AddReplyChannels(info: map<string, ChannelItem>, items: seq<ChannelItem>)
    returns (r: Option<map<string, ChannelItem>>)
    ensures r == AddChannels(info, items)
  {
    var channelsInfo := info;
    var j := 0;
    while j < |items|
      invariant 0 <= j <= |items|
      invariant AddChannels(info, items) == AddChannels(channelsInfo, items[j..])
    {
      var c := items[j];
      if c.id.None? {
        return None;
      }
      assert items[j..][1..] == items[j + 1..];
      channelsInfo := channelsInfo[c.id.value := c];
      j := j + 1;
    }
    return Some(channelsInfo);
  }

  /** Line 50: `list(set(...))`, the distinct channel ids in the set's iteration order. */
  method CollectChannelIds(vs: seq<VideoItem>) returns (ids: Option<seq<string>>)
    ensures ids.Some? <==> ChannelIdSet(vs).Some?
    ensures ids.Some? ==> NoDuplicates(ids.value) && (set c | c in ids.value) == ChannelIdSet(vs).value
  {
    var distinct := ChannelIdSet(vs);
    if distinct.None? {
      return None;
    }
    var remaining := distinct.value;
    var order: seq<string> := [];
    while remaining != {}
      invariant NoDuplicates(order)
      invariant (set c | c in order) !! remaining
      invariant (set c | c in order) + remaining == distinct.value
      decreases remaining
    {
      var c :| c in remaining;
      order := order + [c];
      remaining := remaining - {c};
    }
    return Some(order);
  }

  /** Lines 61-125: the per-video loop, staging row writes in the session. */
  method ProcessVideos(vs: seq<VideoItem>, info: map<string, ChannelItem>, f: Filters, now: int,
                       rows: map<string, ChannelRow>)
    returns (results: seq<VideoResult>, pending: map<string, ChannelRow>)
    ensures results == Results(vs, info, f, now)
    ensures pending == Rows(vs, info, f, now, rows)
  {
    results, pending := [], rows;
    var i := 0;
    while i < |vs|
      invariant 0 <= i <= |vs|
      invariant results == Results(vs[..i], info, f, now)
      invariant pending == Rows(vs[..i], info, f, now, rows)
    {
      var outcome := Evaluate(vs[i], info, f, now);
      ResultsRowsStep(vs, i, info, f, now, rows);
      if outcome.Writes() {
        pending := Upsert(pending, outcome.channelId, outcome.update);
      }
      if outcome.Emitted? {
        results := results + [outcome.result];
      }
      i := i + 1;
    }
    assert vs[..|vs|] == vs;
  }

  /** Lines 17-47: the client, the search and the video lookups; None when the run returns `[]` there. */
  method FetchVideoStage(client: Client, apiKey: string, a: SearchArgs) returns (videos: Option<seq<VideoItem>>)
    modifies client
    ensures client.calls == old(client.calls) + VideoStage(client.endpoints, apiKey, a).calls
    ensures videos == VideoStage(client.endpoints, apiKey, a).value
  {
    if !ClientBuilt(client.endpoints, apiKey) {
      return None;
    }
    var reply := client.Search(RequestOf(a));
    if reply.Failed? || reply.items == [] {
      return None;
    }
    var videoIds := VideoIds(reply.items);
    if videoIds.None? {
      return None;
    }
    videos := FetchVideoItems(client, videoIds.value);
  }

  /**
   * `search_youtube_videos(api_key, query, max_results, published_after,
   * min_views, max_views, min_subs, max_subs)` with `now` for `utcnow()`.
   * `channelOrder` is the order in which the set of channel ids was listed.
   */
  method SearchYoutubeVideos(client: Client, table: ChannelTable, apiKey: string, a: SearchArgs, now: int)
    returns (results: seq<VideoResult>, ghost channelOrder: seq<string>)
    modifies client, table
    ensures ChannelOrderFits(client.endpoints, apiKey, a, channelOrder)
    ensures var run := Run(client.endpoints, apiKey, a, channelOrder, old(table.rows), now);
      && client.calls == old(client.calls) + run.calls
      && results == run.results
      && table.rows == run.rows
  {
    channelOrder := [];
    var videoItems := FetchVideoStage(client, apiKey, a);
    if videoItems.None? {
      return [], channelOrder;
    }
    var channelIds := CollectChannelIds(videoItems.value);
    if channelIds.None? {
      return [], channelOrder;
    }
    channelOrder := channelIds.value;
    var info := FetchChannelInfo(client, channelIds.value);
    assert client.calls == old(client.calls) + (VideoStage(client.endpoints, apiKey, a).calls
                                                + ChannelsFrom(client.endpoints, channelOrder, 0, map[]).calls);
    if info.None? {
      return [], channelOrder;
    }
    ghost var e, rows := client.endpoints, table.rows;
    var pending;
    results, pending := ProcessVideos(videoItems.value, info.value, a.filters, now, table.rows);
    table.rows := pending;
    assert Run(e, apiKey, a, channelOrder, rows, now)
        == SearchRun(VideoStage(e, apiKey, a).calls + ChannelsFrom(e, channelOrder, 0, map[]).calls, results, pending);
  }
}
