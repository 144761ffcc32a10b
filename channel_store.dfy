/**
 * The `Channel` table (app/models.py, lines 29-43) as the pipeline uses it:
 * rows keyed by their unique `youtube_id`, and the upsert of
 * app/utils.py, lines 93-106.
 */
module ChannelStore {
  import opened Wrappers
  import opened Scoring

  /** One `Channel` row; its `youtube_id` is the key it is stored under. */
  datatype ChannelRow = ChannelRow(
    title: Option<string>,
    thumbnail: Option<string>,
    subscribers: nat,
    videoCount: nat,
    viewCount: Option<int>,
    createdAt: Option<int>,
    isPromising: bool,
    lastUpdated: int,
    score: nat,
    opportunity: Tier)

  /** The fields the pipeline overwrites on every processed video. */
  datatype ChannelUpdate = ChannelUpdate(
    title: Option<string>,
    thumbnail: Option<string>,
    subscribers: nat,
    videoCount: nat,
    createdAt: Option<int>,
    score: nat,
    tier: Tier,
    lastUpdated: int)

  /** The row carries every field of the update. */
  predicate Reflects(row: ChannelRow, u: ChannelUpdate) {
    && row.title == u.title
    && row.thumbnail == u.thumbnail
    && row.subscribers == u.subscribers
    && row.videoCount == u.videoCount
    && row.createdAt == u.createdAt
    && row.score == u.score
    && row.opportunity == u.tier
    && row.lastUpdated == u.lastUpdated
  }

  /** `Channel(youtube_id=c_id)`: the column defaults before any field is set. */
  const FreshRow := ChannelRow(None, None, 0, 0, None, None, false, 0, 0, Saturated)

  /**
   * Reuse the row stored under `id` or create one, then overwrite its
   * mutable fields: `view_count` and `is_promising` keep what they had.
   */
  function Upsert(rows: map<string, ChannelRow>, id: string, u: ChannelUpdate): (r: map<string, ChannelRow>)
    ensures r.Keys == rows.Keys + {id}
    ensures forall k :: k in rows && k != id ==> r[k] == rows[k]
    ensures Reflects(r[id], u)
    ensures id in rows ==> r[id].viewCount == rows[id].viewCount && r[id].isPromising == rows[id].isPromising
    ensures id !in rows ==> r[id].viewCount == None && !r[id].isPromising
  {
    var base := if id in rows then rows[id] else FreshRow;
    rows[id := base.(title := u.title, thumbnail := u.thumbnail, subscribers := u.subscribers,
                     videoCount := u.videoCount, createdAt := u.createdAt, score := u.score,
                     opportunity := u.tier, lastUpdated := u.lastUpdated)]
  }

  /** Writing the same update twice leaves the table as writing it once. */
  lemma UpsertIdempotent(rows: map<string, ChannelRow>, id: string, u: ChannelUpdate)
    ensures Upsert(Upsert(rows, id, u), id, u) == Upsert(rows, id, u)
  {
  }

  /** Of two writes to the same channel, the later one decides the row. */
  lemma UpsertLastWriteWins(rows: map<string, ChannelRow>, id: string, u1: ChannelUpdate, u2: ChannelUpdate)
    ensures Upsert(Upsert(rows, id, u1), id, u2) == Upsert(rows, id, u2)
  {
  }

  /** The table the pipeline commits into (`db.session.commit()`). */
  class ChannelTable {
    var rows: map<string, ChannelRow>

    constructor(initial: map<string, ChannelRow>)
      ensures rows == initial
    {
      rows := initial;
    }
  }
}
