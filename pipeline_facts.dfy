/**
 * What `search_youtube_videos` guarantees, proved about the stage functions
 * of module Pipeline: the slicing of lookups, the join, the filters, the
 * score and tier of every result, the rows written, and the abort paths.
 */
module PipelineFacts {
  import opened Wrappers
  import opened Scoring
  import opened Filters
  import opened ChannelStore
  import opened YouTubeApi
  import opened Batching
  import opened Pipeline

  // ------------------------------------------------------------- requests

  /**
   * The video lookups are the slices of the id list, in order: a prefix of
   * them when one raises, all of them otherwise.
   */
  lemma {:induction false} VideoLookupsFollowSlices(e: Endpoints, ids: seq<string>, i: nat)
    ensures VideosFrom(e, ids, i).calls <= VideosCalls(BatchesFrom(ids, i))
    ensures VideosFrom(e, ids, i).value.Some? ==> VideosFrom(e, ids, i).calls == VideosCalls(BatchesFrom(ids, i))
    decreases |ids| - i
  {
    if i < |ids| {
      var b := Batch(ids, i);
      VideosFromStep(e, ids, i);
      var all := VideosCalls(BatchesFrom(ids, i));
      assert all == [VideosCall(b)] + VideosCalls(BatchesFrom(ids, i + BatchSize));
      if VideoSlice(e, ids, i).Some? {
        VideoLookupsFollowSlices(e, ids, i + BatchSize);
      }
    }
  }

  /** The items of the replies to the video lookups `bs`, slice after slice; a failed lookup adds none. */
  function ReplyVideos(e: Endpoints, bs: seq<seq<string>>): seq<VideoItem>
    decreases |bs|
  {
    if bs == [] then []
    else (match e.videos(bs[0]) case Ok(items) => items case Failed => []) + ReplyVideos(e, bs[1..])
  }

  /**
   * What the video lookups keep (`video_items.extend` per reply): they
   * succeed exactly when every lookup answers, and then their videos are
   * the items of the replies, in slice order.
   */
  lemma {:induction false} VideosFromKeepsReplies(e: Endpoints, ids: seq<string>, i: nat)
    ensures VideosFrom(e, ids, i).value.Some? <==> forall b :: b in BatchesFrom(ids, i) ==> e.videos(b).Ok?
    ensures VideosFrom(e, ids, i).value.Some? ==> VideosFrom(e, ids, i).value.value == ReplyVideos(e, BatchesFrom(ids, i))
    decreases |ids| - i
  {
    if i < |ids| {
      var b := Batch(ids, i);
      var bs := BatchesFrom(ids, i);
      var rest := BatchesFrom(ids, i + BatchSize);
      assert bs == [b] + rest && bs[0] == b && bs[1..] == rest;
      assert forall b' :: b' in bs <==> b' == b || b' in rest;
      VideosFromStep(e, ids, i);
      if VideoSlice(e, ids, i).Some? {
        VideosFromKeepsReplies(e, ids, i + BatchSize);
      }
    }
  }

  /** The same for the channel lookups, whatever the map filled so far. */
  lemma {:induction false} ChannelLookupsFollowSlices(e: Endpoints, ids: seq<string>, i: nat, info: map<string, ChannelItem>)
    ensures ChannelsFrom(e, ids, i, info).calls <= ChannelsCalls(BatchesFrom(ids, i))
    ensures ChannelsFrom(e, ids, i, info).value.Some? ==> ChannelsFrom(e, ids, i, info).calls == ChannelsCalls(BatchesFrom(ids, i))
    decreases |ids| - i
  {
    if i < |ids| {
      var b := Batch(ids, i);
      var all := ChannelsCalls(BatchesFrom(ids, i));
      assert all == [ChannelsCall(b)] + ChannelsCalls(BatchesFrom(ids, i + BatchSize));
      match ChannelSlice(e, ids, i, info)
      case None =>
      case Some(info') =>
        ChannelLookupsFollowSlices(e, ids, i + BatchSize, info');
    }
  }

  /**
   * The requests before the channel ids: nothing without a client;
   * otherwise the search first, and nothing else when it fails or finds
   * nothing; then the video slices of the search hits, in order, all
   * ceil(n / 50) of them when none fails.
   */
  lemma VideoStageRequests(e: Endpoints, apiKey: string, a: SearchArgs)
    ensures !ClientBuilt(e, apiKey) ==> VideoStage(e, apiKey, a).calls == []
    ensures ClientBuilt(e, apiKey) ==>
      |VideoStage(e, apiKey, a).calls| >= 1 && VideoStage(e, apiKey, a).calls[0] == SearchCall(RequestOf(a))
    ensures ClientBuilt(e, apiKey) && (e.search(RequestOf(a)).Failed? || e.search(RequestOf(a)).items == []) ==>
      VideoStage(e, apiKey, a).calls == [SearchCall(RequestOf(a))] && VideoStage(e, apiKey, a).value.None?
    ensures ClientBuilt(e, apiKey) && e.search(RequestOf(a)).Ok? && VideoIds(e.search(RequestOf(a)).items).Some? ==>
      var ids := VideoIds(e.search(RequestOf(a)).items).value;
      var videoCalls := VideoStage(e, apiKey, a).calls[1..];
      && videoCalls <= VideosCalls(BatchesFrom(ids, 0))
      && (VideoStage(e, apiKey, a).value.Some? ==> |videoCalls| == (|ids| + BatchSize - 1) / BatchSize)
  {
    var stage := VideoStage(e, apiKey, a);
    if ClientBuilt(e, apiKey) && e.search(RequestOf(a)).Ok? && VideoIds(e.search(RequestOf(a)).items).Some? {
      var ids := VideoIds(e.search(RequestOf(a)).items).value;
      if e.search(RequestOf(a)).items != [] {
        VideoLookupsFollowSlices(e, ids, 0);
        BatchesShape(ids);
        assert stage.calls[1..] == VideosFrom(e, ids, 0).calls;
      } else {
        assert stage.calls[1..] == [];
      }
    }
  }

  /**
   * What the video stage keeps: it yields videos exactly when there is a
   * client, the search answers with hits that all carry a video id, and
   * every video lookup answers; the videos are then the items of the
   * lookup replies, slice after slice.
   */
  lemma VideoStageKeepsReplies(e: Endpoints, apiKey: string, a: SearchArgs)
    ensures var stage := VideoStage(e, apiKey, a).value;
      var search := e.search(RequestOf(a));
      stage.Some? <==>
        && ClientBuilt(e, apiKey) && search.Ok? && search.items != [] && VideoIds(search.items).Some?
        && forall b :: b in BatchesFrom(VideoIds(search.items).value, 0) ==> e.videos(b).Ok?
    ensures var stage := VideoStage(e, apiKey, a).value;
      var search := e.search(RequestOf(a));
      stage.Some? && search.Ok? && VideoIds(search.items).Some? ==>
        stage.value == ReplyVideos(e, BatchesFrom(VideoIds(search.items).value, 0))
  {
    var search := e.search(RequestOf(a));
    if ClientBuilt(e, apiKey) && search.Ok? && search.items != [] && VideoIds(search.items).Some? {
      VideosFromKeepsReplies(e, VideoIds(search.items).value, 0);
    }
  }

  /** A run's requests are those of the video stage, then the channel lookups if it got that far. */
  lemma RunCallsAreStages(e: Endpoints, apiKey: string, a: SearchArgs, channelOrder: seq<string>,
                          rows: map<string, ChannelRow>, now: int)
    ensures var stage := VideoStage(e, apiKey, a);
      Run(e, apiKey, a, channelOrder, rows, now).calls ==
        stage.calls + (if stage.value.Some? && ChannelIdSet(stage.value.value).Some?
                       then ChannelsFrom(e, channelOrder, 0, map[]).calls else [])
  {
    var stage := VideoStage(e, apiKey, a);
    if !(stage.value.Some? && ChannelIdSet(stage.value.value).Some?) {
      assert stage.calls + [] == stage.calls;
    }
  }

  /**
   * After the video stage a run sends channel lookups only: a prefix of the
   * slices of the channel ids, and none when the video stage raised.
   */
  lemma RunRequests(e: Endpoints, apiKey: string, a: SearchArgs, channelOrder: seq<string>,
                    rows: map<string, ChannelRow>, now: int)
    ensures var run := Run(e, apiKey, a, channelOrder, rows, now);
      var stage := VideoStage(e, apiKey, a);
      && stage.calls <= run.calls
      && run.calls[|stage.calls|..] <= ChannelsCalls(BatchesFrom(channelOrder, 0))
      && (stage.value.None? ==> run.calls == stage.calls)
  {
    RunCallsAreStages(e, apiKey, a, channelOrder, rows, now);
    ChannelLookupsFollowSlices(e, channelOrder, 0, map[]);
    var run := Run(e, apiKey, a, channelOrder, rows, now);
    var stage := VideoStage(e, apiKey, a);
    assert run.calls[|stage.calls|..] ==
      (if stage.value.Some? && ChannelIdSet(stage.value.value).Some? then ChannelsFrom(e, channelOrder, 0, map[]).calls else []);
  }

  /**
   * The channel lookups of a run carry 1 to 50 ids each, together exactly
   * the channel order, which repeats no id: each distinct channel is
   * requested once.
   */
  lemma ChannelRequestsAreDistinct(e: Endpoints, apiKey: string, a: SearchArgs, channelOrder: seq<string>)
    requires ChannelOrderFits(e, apiKey, a, channelOrder)
    ensures forall b :: b in BatchesFrom(channelOrder, 0) ==> 1 <= |b| <= BatchSize
    ensures Flatten(BatchesFrom(channelOrder, 0)) == channelOrder
    ensures var vs := VideoStage(e, apiKey, a).value;
      vs.Some? && ChannelIdSet(vs.value).Some? ==> NoDuplicates(channelOrder)
  {
    BatchesShape(channelOrder);
  }

  /** A list without repeats has as many distinct elements as entries. */
  lemma {:induction false} DistinctCount<T>(s: seq<T>)
    requires NoDuplicates(s)
    ensures |set x | x in s| == |s|
  {
    if s != [] {
      var tail := s[1..];
      assert NoDuplicates(tail) by {
        forall a, b | 0 <= a < b < |tail|
          ensures tail[a] != tail[b]
        {
          assert tail[a] == s[a + 1] && tail[b] == s[b + 1];
        }
      }
      DistinctCount(tail);
      assert (set x | x in s) == {s[0]} + (set x | x in tail);
      forall j | 0 <= j < |tail|
        ensures tail[j] != s[0]
      {
        assert tail[j] == s[j + 1];
      }
    }
  }

  /**
   * The channel lookups of a run whose video stage succeeded: a prefix of
   * the slices of the channel ids, and, when none raises, exactly
   * ceil(k / 50) of them for the k distinct channel ids of the videos.
   */
  lemma ChannelStageRequests(e: Endpoints, apiKey: string, a: SearchArgs, channelOrder: seq<string>,
                             rows: map<string, ChannelRow>, now: int)
    requires ChannelOrderFits(e, apiKey, a, channelOrder)
    ensures var stage := VideoStage(e, apiKey, a);
      stage.value.Some? && ChannelIdSet(stage.value.value).Some? ==>
        var channelCalls := Run(e, apiKey, a, channelOrder, rows, now).calls[|stage.calls|..];
        var k := |ChannelIdSet(stage.value.value).value|;
        && channelCalls <= ChannelsCalls(BatchesFrom(channelOrder, 0))
        && (ChannelsFrom(e, channelOrder, 0, map[]).value.Some? ==> |channelCalls| == (k + BatchSize - 1) / BatchSize)
  {
    var stage := VideoStage(e, apiKey, a);
    if stage.value.Some? && ChannelIdSet(stage.value.value).Some? {
      RunCallsAreStages(e, apiKey, a, channelOrder, rows, now);
      ChannelLookupsFollowSlices(e, channelOrder, 0, map[]);
      BatchesShape(channelOrder);
      DistinctCount(channelOrder);
      var run := Run(e, apiKey, a, channelOrder, rows, now);
      assert run.calls[|stage.calls|..] == ChannelsFrom(e, channelOrder, 0, map[]).calls;
    }
  }

  // ---------------------------------------------------------- channel map

  /** Every entry of the channel map is the item of the channel it is filed under. */
  predicate KeyedById(info: map<string, ChannelItem>) {
    forall k :: k in info ==> info[k].id == Some(k)
  }

  /** `c` is an item of the reply to one of the channel lookups for the slices from i. */
  predicate FromChannelReplies(e: Endpoints, ids: seq<string>, i: nat, c: ChannelItem) {
    exists b :: b in BatchesFrom(ids, i) && e.channels(b).Ok? && c in e.channels(b).items
  }

  /**
   * `channels_info[c['id']] = c` files each reply item under its own id:
   * the filing succeeds exactly when every item has an id; then every
   * earlier key stays, every item's id becomes a key, and every entry is
   * an earlier one or an item of the reply.
   */
  lemma {:induction false} AddChannelsKeyedById(info: map<string, ChannelItem>, items: seq<ChannelItem>)
    requires KeyedById(info)
    ensures var m := AddChannels(info, items);
      && (m.Some? <==> forall c :: c in items ==> c.id.Some?)
      && (m.Some? ==>
        && KeyedById(m.value)
        && info.Keys <= m.value.Keys
        && (forall c :: c in items && c.id.Some? ==> c.id.value in m.value)
        && forall k :: k in m.value ==> (k in info && m.value[k] == info[k]) || m.value[k] in items)
    decreases |items|
  {
    if items != [] {
      assert items[0] in items;
      assert forall c :: c in items <==> c == items[0] || c in items[1..];
      if items[0].id.Some? {
        var info' := info[items[0].id.value := items[0]];
        AddChannelsKeyedById(info', items[1..]);
        var m := AddChannels(info, items);
        assert m == AddChannels(info', items[1..]);
        if m.Some? {
          forall k | k in m.value
            ensures (k in info && m.value[k] == info[k]) || m.value[k] in items
          {
            if !(k in info' && m.value[k] == info'[k]) {
              assert m.value[k] in items[1..];
            }
          }
        }
      }
    }
  }

  /**
   * The channel map the lookups from slice i fill: it is filled exactly
   * when every lookup answers and every item has an id; then it is keyed
   * by channel id, keeps the earlier keys, holds the id of every item of
   * every reply, and every new entry is an item of one of the replies.
   */
  lemma {:induction false} ChannelsFromKeyedById(e: Endpoints, ids: seq<string>, i: nat, info: map<string, ChannelItem>)
    requires KeyedById(info)
    ensures var m := ChannelsFrom(e, ids, i, info).value;
      && (m.Some? <==> forall b :: b in BatchesFrom(ids, i) ==>
            e.channels(b).Ok? && forall c :: c in e.channels(b).items ==> c.id.Some?)
      && (m.Some? ==>
        && KeyedById(m.value)
        && info.Keys <= m.value.Keys
        && (forall b, c :: b in BatchesFrom(ids, i) && e.channels(b).Ok? && c in e.channels(b).items && c.id.Some? ==>
              c.id.value in m.value)
        && forall k :: k in m.value ==> (k in info && m.value[k] == info[k]) || FromChannelReplies(e, ids, i, m.value[k]))
    decreases |ids| - i
  {
    if i < |ids| {
      var b := Batch(ids, i);
      var rest := BatchesFrom(ids, i + BatchSize);
      assert BatchesFrom(ids, i) == [b] + rest;
      assert forall b' :: b' in BatchesFrom(ids, i) <==> b' == b || b' in rest;
      if e.channels(b).Ok? {
        AddChannelsKeyedById(info, e.channels(b).items);
      }
      match ChannelSlice(e, ids, i, info)
      case None =>
      case Some(info') =>
        ChannelsFromKeyedById(e, ids, i + BatchSize, info');
        var m := ChannelsFrom(e, ids, i, info).value;
        assert m == ChannelsFrom(e, ids, i + BatchSize, info').value;
        if m.Some? {
          forall k | k in m.value
            ensures (k in info && m.value[k] == info[k]) || FromChannelReplies(e, ids, i, m.value[k])
          {
            if !(k in info' && m.value[k] == info'[k]) {
              var b' :| b' in rest && e.channels(b').Ok? && m.value[k] in e.channels(b').items;
              assert b' in BatchesFrom(ids, i);
            } else if !(k in info && m.value[k] == info[k]) {
              assert m.value[k] in e.channels(b).items;
            }
          }
        }
    }
  }

  /**
   * The join of lines 66-69 against a filled channel map: an id is a key
   * exactly when the reply to one of the lookups carried an item with that id.
   */
  lemma ChannelKeysAreRepliedIds(e: Endpoints, ids: seq<string>)
    ensures var m := ChannelsFrom(e, ids, 0, map[]).value;
      m.Some? ==> forall id :: id in m.value <==>
        exists b, c :: b in BatchesFrom(ids, 0) && e.channels(b).Ok? && c in e.channels(b).items && c.id == Some(id)
  {
    ChannelsFromKeyedById(e, ids, 0, map[]);
    var m := ChannelsFrom(e, ids, 0, map[]).value;
    if m.Some? {
      forall id | id in m.value
        ensures exists b, c :: b in BatchesFrom(ids, 0) && e.channels(b).Ok? && c in e.channels(b).items && c.id == Some(id)
      {
        var b :| b in BatchesFrom(ids, 0) && e.channels(b).Ok? && m.value[id] in e.channels(b).items;
      }
    }
  }

  /**
   * In a run whose video and channel stages succeed, a fetched video with a
   * channel id finds its channel (is not dropped at line 69) exactly when a
   * channel reply carried an item with that id.
   */
  lemma RunJoinsRepliedChannels(e: Endpoints, apiKey: string, a: SearchArgs, channelOrder: seq<string>)
    ensures var videos := VideoStage(e, apiKey, a).value;
      var channels := ChannelsFrom(e, channelOrder, 0, map[]).value;
      videos.Some? && channels.Some? ==>
        forall v :: v in videos.value && v.snippet.Some? && v.snippet.value.channelId.Some? ==>
          (Joined(v, channels.value) <==>
            exists b, c :: b in BatchesFrom(channelOrder, 0) && e.channels(b).Ok? && c in e.channels(b).items &&
              c.id == v.snippet.value.channelId)
  {
    ChannelKeysAreRepliedIds(e, channelOrder);
  }

  /**
   * Any exception outside the per-video loop (no client, a failed or empty
   * search, a missing key, a failed lookup) returns `[]` and commits nothing.
   */
  lemma AbortedRunChangesNothing(e: Endpoints, apiKey: string, a: SearchArgs, channelOrder: seq<string>,
                                 rows: map<string, ChannelRow>, now: int)
    requires var vs := VideoStage(e, apiKey, a).value;
      vs.None? || ChannelIdSet(vs.value).None? || ChannelsFrom(e, channelOrder, 0, map[]).value.None?
    ensures Run(e, apiKey, a, channelOrder, rows, now).results == []
    ensures Run(e, apiKey, a, channelOrder, rows, now).rows == rows
  {
  }

  // -------------------------------------------------------------- results

  /**
   * What a result of the loop over `vs` carries: the subscriber count and
   * creation date of its fetched channel, the id and view count of a video
   * of `vs` on that channel, the score and tier of those numbers; and it
   * passed the filters.
   */
  predicate JoinedFilteredScored(r: VideoResult, vs: seq<VideoItem>, info: map<string, ChannelItem>, f: Filters, now: int) {
    && r.channelId in info
    && CountValue(info[r.channelId].subscriberCount) == Some(r.subscribers)
    && r.channelCreatedAt == CreatedOf(info[r.channelId])
    && (exists v :: v in vs && FromVideo(r, v))
    && Passes(r.views, r.subscribers, f)
    && r.score == ScoreTenths(r.views, r.subscribers)
    && r.opportunity == TierOf(now, r.channelCreatedAt)
  }

  /** The result's id, channel and views are those of `v`. */
  predicate FromVideo(r: VideoResult, v: VideoItem) {
    && v.id == Some(r.videoId)
    && v.snippet.Some? && v.snippet.value.channelId == Some(r.channelId)
    && CountValue(v.viewCount) == Some(r.views)
  }

  /** Every result is joined, filtered and scored; there are never more results than videos. */
  lemma {:induction false} ResultsAreJoinedFilteredScored(vs: seq<VideoItem>, info: map<string, ChannelItem>, f: Filters, now: int)
    ensures |Results(vs, info, f, now)| <= |vs|
    ensures forall r :: r in Results(vs, info, f, now) ==> JoinedFilteredScored(r, vs, info, f, now)
  {
    if vs != [] {
      var prefix, last := vs[..|vs| - 1], vs[|vs| - 1];
      ResultsAreJoinedFilteredScored(prefix, info, f, now);
      var o := Evaluate(last, info, f, now);
      assert Results(vs, info, f, now) == Results(prefix, info, f, now) + EmittedResults(o);
      forall r | r in Results(vs, info, f, now)
        ensures JoinedFilteredScored(r, vs, info, f, now)
      {
        if r in Results(prefix, info, f, now) {
          assert JoinedFilteredScored(r, prefix, info, f, now);
          var v :| v in prefix && FromVideo(r, v);
          assert v in vs;
        } else {
          assert r == o.result;
          assert FromVideo(r, last);
        }
      }
    }
  }

  /**
   * The same for the list a whole run returns: a non-empty list means the
   * video and channel stages succeeded, and its results are joined against
   * their videos and channels; the channel read for a result is the reply
   * item of that very channel.
   */
  lemma RunResultsAreJoinedFilteredScored(e: Endpoints, apiKey: string, a: SearchArgs, channelOrder: seq<string>,
                                          rows: map<string, ChannelRow>, now: int)
    ensures var run := Run(e, apiKey, a, channelOrder, rows, now);
      var videos := VideoStage(e, apiKey, a).value;
      var channels := ChannelsFrom(e, channelOrder, 0, map[]).value;
      run.results != [] ==>
        && videos.Some? && channels.Some?
        && |run.results| <= |videos.value|
        && KeyedById(channels.value)
        && forall r :: r in run.results ==>
          && JoinedFilteredScored(r, videos.value, channels.value, a.filters, now)
          && channels.value[r.channelId].id == Some(r.channelId)
          && FromChannelReplies(e, channelOrder, 0, channels.value[r.channelId])
  {
    var videos := VideoStage(e, apiKey, a);
    if videos.value.Some? && ChannelIdSet(videos.value.value).Some? {
      var channels := ChannelsFrom(e, channelOrder, 0, map[]);
      if channels.value.Some? {
        ResultsAreJoinedFilteredScored(videos.value.value, channels.value.value, a.filters, now);
        ChannelsFromKeyedById(e, channelOrder, 0, map[]);
      }
    }
  }

  /** The results a filter lets through. */
  function KeepPassing(rs: seq<VideoResult>, f: Filters): seq<VideoResult> {
    if rs == [] then []
    else KeepPassing(rs[..|rs| - 1], f) + (if Passes(rs[|rs| - 1].views, rs[|rs| - 1].subscribers, f) then [rs[|rs| - 1]] else [])
  }

  lemma EvaluateUnderLooserFilters(v: VideoItem, info: map<string, ChannelItem>, tight: Filters, loose: Filters, now: int)
    requires Looser(loose, tight)
    ensures Evaluate(v, info, tight, now).Writes() ==> Evaluate(v, info, loose, now) == Evaluate(v, info, tight, now)
    ensures Evaluate(v, info, tight, now).Emitted? <==>
      Evaluate(v, info, loose, now).Emitted? &&
      Passes(Evaluate(v, info, loose, now).result.views, Evaluate(v, info, loose, now).result.subscribers, tight)
  {
    if Evaluate(v, info, tight, now).Writes() {
      var sn := v.snippet.value;
      var c := info[sn.channelId.value];
      LooserStillPasses(CountValue(v.viewCount).value, CountValue(c.subscriberCount).value, tight, loose);
    }
  }

  /** Filtering a list with one more result at its end. */
  lemma KeepPassingSnoc(rs: seq<VideoResult>, x: VideoResult, f: Filters)
    ensures KeepPassing(rs + [x], f)
            == KeepPassing(rs, f) + (if Passes(x.views, x.subscribers, f) then [x] else [])
  {
    assert (rs + [x])[..|rs|] == rs;
  }

  /**
   * Filtering inside the pipeline is filtering its unfiltered output: the
   * results under `tight` are exactly those under any looser `loose` that
   * pass `tight`, in the same order.
   */
  lemma {:induction false} TighterResultsAreFilteredLooserResults(vs: seq<VideoItem>, info: map<string, ChannelItem>,
                                                                   tight: Filters, loose: Filters, now: int)
    requires Looser(loose, tight)
    ensures Results(vs, info, tight, now) == KeepPassing(Results(vs, info, loose, now), tight)
  {
    if vs != [] {
      var prefix, v := vs[..|vs| - 1], vs[|vs| - 1];
      TighterResultsAreFilteredLooserResults(prefix, info, tight, loose, now);
      EvaluateUnderLooserFilters(v, info, tight, loose, now);
      var before := Results(prefix, info, loose, now);
      var o := Evaluate(v, info, loose, now);
      assert Results(vs, info, loose, now) == before + EmittedResults(o);
      if o.Emitted? {
        KeepPassingSnoc(before, o.result, tight);
      } else {
        assert before + [] == before;
      }
    }
  }

  /** So loosening a bound never loses a result. */
  lemma LooserResultsKeepTighterOnes(vs: seq<VideoItem>, info: map<string, ChannelItem>,
                                     tight: Filters, loose: Filters, now: int)
    requires Looser(loose, tight)
    ensures forall r :: r in Results(vs, info, tight, now) ==> r in Results(vs, info, loose, now)
  {
    TighterResultsAreFilteredLooserResults(vs, info, tight, loose, now);
    KeepPassingIsSubsequence(Results(vs, info, loose, now), tight);
  }

  lemma {:induction false} KeepPassingIsSubsequence(rs: seq<VideoResult>, f: Filters)
    ensures forall r :: r in KeepPassing(rs, f) ==> r in rs
  {
    if rs != [] {
      KeepPassingIsSubsequence(rs[..|rs| - 1], f);
    }
  }

  // ----------------------------------------------------------------- rows

  /** The channels whose row the loop writes. */
  function WrittenIds(vs: seq<VideoItem>, info: map<string, ChannelItem>, f: Filters, now: int): set<string> {
    if vs == [] then {}
    else
      var o := Evaluate(vs[|vs| - 1], info, f, now);
      WrittenIds(vs[..|vs| - 1], info, f, now) + (if o.Writes() then {o.channelId} else {})
  }

  /**
   * The loop adds a row exactly for the channels it writes, each under its
   * own `youtube_id` and only for fetched channels, and leaves every other
   * row as it was.
   */
  lemma {:induction false} RowsWrittenExactly(vs: seq<VideoItem>, info: map<string, ChannelItem>, f: Filters, now: int,
                                              rows: map<string, ChannelRow>)
    ensures Rows(vs, info, f, now, rows).Keys == rows.Keys + WrittenIds(vs, info, f, now)
    ensures WrittenIds(vs, info, f, now) <= info.Keys
    ensures forall k :: k in rows && k !in WrittenIds(vs, info, f, now) ==> Rows(vs, info, f, now, rows)[k] == rows[k]
  {
    if vs != [] {
      RowsWrittenExactly(vs[..|vs| - 1], info, f, now, rows);
    }
  }

  /**
   * When several videos share a channel, the row holds what the last of
   * them that reached `db.session.add` wrote: its title, counts, creation
   * date, score and tier.
   */
  lemma {:induction false} LastWriterDecidesRow(vs: seq<VideoItem>, info: map<string, ChannelItem>, f: Filters, now: int,
                                                rows: map<string, ChannelRow>, j: nat)
    requires j < |vs| && ReachesAdd(vs[j], info, f)
    requires forall k :: j < k < |vs| && ReachesAdd(vs[k], info, f) ==>
      vs[k].snippet.value.channelId != vs[j].snippet.value.channelId
    ensures var cid := vs[j].snippet.value.channelId.value;
      cid in Rows(vs, info, f, now, rows) && Reflects(Rows(vs, info, f, now, rows)[cid], Evaluate(vs[j], info, f, now).update)
  {
    var prefix := vs[..|vs| - 1];
    if j < |vs| - 1 {
      forall k | j < k < |prefix| && ReachesAdd(prefix[k], info, f)
        ensures prefix[k].snippet.value.channelId != prefix[j].snippet.value.channelId
      {
        assert prefix[k] == vs[k];
      }
      assert prefix[j] == vs[j];
      LastWriterDecidesRow(prefix, info, f, now, rows, j);
    }
  }

  /**
   * A video that gets to `db.session.add` but has no `publishedAt` fails
   * after the add: it writes its channel's row and contributes no result.
   */
  lemma LateFailureStillWritesRow(v: VideoItem, info: map<string, ChannelItem>, f: Filters, now: int,
                                  rows: map<string, ChannelRow>)
    requires ReachesAdd(v, info, f)
    requires v.snippet.value.publishedAt.None?
    ensures Evaluate(v, info, f, now).RowOnly?
    ensures Results([v], info, f, now) == []
    ensures v.snippet.value.channelId.value in Rows([v], info, f, now, rows)
  {
    assert [v][..0] == [];
  }

  /** A video the filters reject writes no row and gives no result. */
  lemma FilteredVideoWritesNothing(v: VideoItem, info: map<string, ChannelItem>, f: Filters, now: int,
                                   rows: map<string, ChannelRow>)
    requires Joined(v, info)
    requires var c := info[v.snippet.value.channelId.value];
      && CountValue(v.viewCount).Some? && CountValue(c.subscriberCount).Some?
      && !Passes(CountValue(v.viewCount).value, CountValue(c.subscriberCount).value, f)
    ensures Evaluate(v, info, f, now).Dropped?
    ensures Results([v], info, f, now) == [] && Rows([v], info, f, now, rows) == rows
  {
    assert [v][..0] == [];
  }

  // ------------------------------------------------------------- scenario

  /**
   * Two videos: one of 500 views on C1 (1000 subscribers, created 10 days
   * ago), one of 10 views on C2 (no subscribers, created 200 days ago).
   */
  function ScenarioVideos(now: int): seq<VideoItem> {
    [VideoItem(Some("v1"), Some(VideoSnippet(Some("C1"), Some("Canal 1"), Some("t1"), None, Some(now - MicrosPerDay))), Numeral(500)),
     VideoItem(Some("v2"), Some(VideoSnippet(Some("C2"), Some("Canal 2"), Some("t2"), None, Some(now - MicrosPerDay))), Numeral(10))]
  }

  function ScenarioChannels(now: int): map<string, ChannelItem> {
    map["C1" := ChannelItem(Some("C1"), Numeral(1000), Numeral(3), Dated(now - 10 * MicrosPerDay), None),
        "C2" := ChannelItem(Some("C2"), Numeral(0), Numeral(7), Dated(now - 200 * MicrosPerDay), None)]
  }

  /** The loop over two videos emits the first one's result, then the second one's. */
  lemma ResultsOfTwo(v0: VideoItem, v1: VideoItem, info: map<string, ChannelItem>, f: Filters, now: int)
    ensures Results([v0, v1], info, f, now)
         == EmittedResults(Evaluate(v0, info, f, now)) + EmittedResults(Evaluate(v1, info, f, now))
  {
    var vs := [v0, v1];
    assert vs[..1] == [v0] && [v0][..0] == [];
    assert Results([v0], info, f, now) == Results([], info, f, now) + EmittedResults(Evaluate(v0, info, f, now));
    assert Results(vs, info, f, now) == Results([v0], info, f, now) + EmittedResults(Evaluate(v1, info, f, now));
  }

  /** C1 scores 50.0 and is a great opportunity; C2 scores 0 and is saturated. */
  lemma TwoChannelScenario(now: int)
    ensures var rs := Results(ScenarioVideos(now), ScenarioChannels(now), NoFilters, now);
      && |rs| == 2
      && rs[0].channelId == "C1" && rs[0].score == 500 && rs[0].opportunity == GreatOpportunity
      && rs[1].channelId == "C2" && rs[1].score == 0 && rs[1].opportunity == Saturated
  {
    var vs, info := ScenarioVideos(now), ScenarioChannels(now);
    ResultsOfTwo(vs[0], vs[1], info, NoFilters, now);
    ScenarioFirstVideo(now);
    ScenarioSecondVideo(now);
  }

  lemma ScenarioFirstVideo(now: int)
    ensures var o := Evaluate(ScenarioVideos(now)[0], ScenarioChannels(now), NoFilters, now);
      o.Emitted? && o.result.channelId == "C1" && o.result.score == 500 && o.result.opportunity == GreatOpportunity
  {
    var v, info := ScenarioVideos(now)[0], ScenarioChannels(now);
    assert "C1" in info && info["C1"].subscriberCount == Numeral(1000);
    assert ScoreTenths(500, 1000) == 500;
    NoFiltersPassAll(500, 1000);
    assert TierOf(now, Some(now - 10 * MicrosPerDay)) == GreatOpportunity;
  }

  lemma ScenarioSecondVideo(now: int)
    ensures var o := Evaluate(ScenarioVideos(now)[1], ScenarioChannels(now), NoFilters, now);
      o.Emitted? && o.result.channelId == "C2" && o.result.score == 0 && o.result.opportunity == Saturated
  {
    var v, info := ScenarioVideos(now)[1], ScenarioChannels(now);
    assert "C2" in info && info["C2"].subscriberCount == Numeral(0);
    NoFiltersPassAll(10, 0);
    assert TierOf(now, Some(now - 200 * MicrosPerDay)) == Saturated;
  }

  /** A floor of 5000 subscribers drops both videos. */
  lemma ScenarioFloorDropsBoth(now: int)
    ensures Results(ScenarioVideos(now), ScenarioChannels(now), Filters(0, None, 5000, None), now) == []
  {
    var vs, info, tight := ScenarioVideos(now), ScenarioChannels(now), Filters(0, None, 5000, None);
    ResultsOfTwo(vs[0], vs[1], info, tight, now);
    assert Evaluate(vs[0], info, tight, now) == Dropped(Filtered);
    assert Evaluate(vs[1], info, tight, now) == Dropped(Filtered);
  }

  /** Without C2's channel data only C1's video is returned. */
  lemma ScenarioMissingChannel(now: int)
    ensures var rs := Results(ScenarioVideos(now), ScenarioChannels(now) - {"C2"}, NoFilters, now);
      |rs| == 1 && rs[0].videoId == "v1"
  {
    var vs, partial := ScenarioVideos(now), ScenarioChannels(now) - {"C2"};
    ResultsOfTwo(vs[0], vs[1], partial, NoFilters, now);
    NoFiltersPassAll(500, 1000);
    assert Evaluate(vs[1], partial, NoFilters, now) == Dropped(NoChannel);
    assert Evaluate(vs[0], partial, NoFilters, now).Emitted?;
  }
}
