/**
 * The score and the opportunity tier that `search_youtube_videos` computes
 * for every joined video (app/utils.py, lines 82-90). Timestamps are
 * integer microseconds since the epoch; the score is kept in tenths.
 */
module Scoring {
  import opened Wrappers
  import opened Arith

  const MicrosPerSecond: int := 1_000_000
  const MicrosPerDay: int := 86_400_000_000

  /** The three `opportunity` labels. */
  datatype Tier = GreatOpportunity | GoodOpportunity | Saturated

  /** The label text stored in `Channel.opportunity_label` and shown to users. */
  function Label(t: Tier): string {
    match t
    case GreatOpportunity => "Ótima Oportunidade"
    case GoodOpportunity => "Boa Oportunidade"
    case Saturated => "Saturado"
  }

  lemma LabelInjective(t: Tier, u: Tier)
    ensures Label(t) == Label(u) <==> t == u
  {
    if t != u {
      assert Label(t)[0] != Label(u)[0];
    }
  }

  /** How promising a tier is: Great above Good above Saturated. */
  function Rank(t: Tier): nat {
    match t
    case GreatOpportunity => 2
    case GoodOpportunity => 1
    case Saturated => 0
  }

  /**
   * `(now - created).days`: the whole days elapsed, rounded toward minus
   * infinity as `timedelta.days` is (a channel dated in the future is
   * negative days old).
   */
  function DaysOld(now: int, created: int): (d: int)
    ensures d * MicrosPerDay <= now - created < (d + 1) * MicrosPerDay
  {
    (now - created) / MicrosPerDay
  }

  /**
   * The opportunity tier of a channel created at `created` (None when the
   * platform gave no creation date), evaluated at `now`.
   * Up to 30 days old is Great, up to 90 is Good, older or undated is
   * Saturated; stated here on elapsed time instead of whole days.
   */
  function TierOf(now: int, created: Option<int>): (t: Tier)
    ensures t == GreatOpportunity <==> created.Some? && now - created.value < 31 * MicrosPerDay
    ensures t == GoodOpportunity <==>
      created.Some? && 31 * MicrosPerDay <= now - created.value < 91 * MicrosPerDay
    ensures t == Saturated <==> created.None? || now - created.value >= 91 * MicrosPerDay
  {
    match created
    case None => Saturated
    case Some(c) =>
      var days := DaysOld(now, c);
      if days <= 30 then GreatOpportunity
      else if days <= 90 then GoodOpportunity
      else Saturated
  }

  /** An older channel never gets a better tier than a younger one. */
  lemma OlderNeverRanksHigher(now: int, older: int, younger: int)
    requires older <= younger
    ensures Rank(TierOf(now, Some(older))) <= Rank(TierOf(now, Some(younger)))
  {
  }

  /** The same channel never improves its tier as time passes. */
  lemma LaterNeverRanksHigher(earlier: int, later: int, created: Option<int>)
    requires earlier <= later
    ensures Rank(TierOf(later, created)) <= Rank(TierOf(earlier, created))
  {
  }

  /**
   * `round(views / subs * 100, 1)` in tenths, and 0 when the channel has no
   * subscribers: the nearest whole number of tenths to views/subs*100.
   */
  function ScoreTenths(views: nat, subs: nat): (r: nat)
    ensures subs == 0 ==> r == 0
    ensures subs > 0 ==> -(subs as int) <= 2000 * views - 2 * subs * r <= subs
  {
    if subs == 0 then 0
    else
      var q := (2000 * views + subs) / (2 * subs);
      DivBounds(2000 * views + subs, 2 * subs);
      q
  }

  /** More views on the same channel never lower the score. */
  lemma ScoreMonotoneInViews(v1: nat, v2: nat, subs: nat)
    requires v1 <= v2
    ensures ScoreTenths(v1, subs) <= ScoreTenths(v2, subs)
  {
    if subs > 0 {
      DivMonotone(2000 * v1 + subs, 2000 * v2 + subs, 2 * subs);
    }
  }
}
