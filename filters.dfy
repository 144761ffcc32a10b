/**
 * The numeric floors and ceilings `search_youtube_videos` applies to every
 * joined video (app/utils.py, lines 77-80). A floor of 0 or less and a
 * ceiling of None or 0 impose nothing.
 */
module Filters {
  import opened Wrappers

  datatype Filters = Filters(minViews: int, maxViews: Option<int>, minSubs: int, maxSubs: Option<int>)

  /** The filters of a call that passes none of them. */
  const NoFilters := Filters(0, None, 0, None)

  /** `if floor > 0 and value < floor: continue` does not fire. */
  predicate AboveFloor(value: nat, floor: int) {
    !(floor > 0 && value < floor)
  }

  /** `if ceiling and value > ceiling: continue` does not fire (None and 0 are falsy). */
  predicate BelowCeiling(value: nat, ceiling: Option<int>) {
    !(ceiling.Some? && ceiling.value != 0 && value > ceiling.value)
  }

  predicate Passes(views: nat, subs: nat, f: Filters) {
    && AboveFloor(views, f.minViews)
    && BelowCeiling(views, f.maxViews)
    && AboveFloor(subs, f.minSubs)
    && BelowCeiling(subs, f.maxSubs)
  }

  /** The ceiling is switched off. */
  predicate NoCeiling(ceiling: Option<int>) {
    ceiling.None? || ceiling.value == 0
  }

  /** `loose` is a floor that lets through everything `tight` does. */
  predicate LooserFloor(loose: int, tight: int) {
    loose <= 0 || loose <= tight
  }

  /** `loose` is a ceiling that lets through everything `tight` does. */
  predicate LooserCeiling(loose: Option<int>, tight: Option<int>) {
    NoCeiling(loose) || (!NoCeiling(tight) && loose.value >= tight.value)
  }

  /** Every bound of `loose` is at least as permissive as the one in `tight`. */
  predicate Looser(loose: Filters, tight: Filters) {
    && LooserFloor(loose.minViews, tight.minViews)
    && LooserCeiling(loose.maxViews, tight.maxViews)
    && LooserFloor(loose.minSubs, tight.minSubs)
    && LooserCeiling(loose.maxSubs, tight.maxSubs)
  }

  /**
   * The filters are a conjunction of the four bounds: a video passes exactly
   * when its views and subscribers lie within every active bound.
   */
  lemma PassesIffWithinBounds(views: nat, subs: nat, f: Filters)
    ensures Passes(views, subs, f) <==>
      && (f.minViews <= 0 || views >= f.minViews)
      && (NoCeiling(f.maxViews) || views <= f.maxViews.value)
      && (f.minSubs <= 0 || subs >= f.minSubs)
      && (NoCeiling(f.maxSubs) || subs <= f.maxSubs.value)
  {
  }

  /** Loosening any bound never rejects a video that passed before. */
  lemma LooserStillPasses(views: nat, subs: nat, tight: Filters, loose: Filters)
    requires Looser(loose, tight) && Passes(views, subs, tight)
    ensures Passes(views, subs, loose)
  {
  }

  /** With no bound set, every video passes. */
  lemma NoFiltersPassAll(views: nat, subs: nat)
    ensures Passes(views, subs, NoFilters)
  {
  }
}
