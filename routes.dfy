/**
 * The two search pages: `garimpo`, which searches with the form's
 * parameters, sorts by score and records the query in the search history,
 * and `promissores`, which runs a fixed search and keeps the promising tiers.
 * An empty `apiKey` stands for a key missing from the configuration.
 */
module Routes {
  import opened Wrappers
  import opened Scoring
  import opened Filters
  import opened ChannelStore
  import opened YouTubeApi
  import opened Pipeline
  import opened PipelineFacts
  import opened Ranking
  import opened Window
  import opened GarimpoForm

  datatype HistoryEntry = HistoryEntry(query: string, userId: nat)

  /** The `search_history` table. */
  class SearchHistory {
    var entries: seq<HistoryEntry>

    constructor(initial: seq<HistoryEntry>)
      ensures entries == initial
    {
      entries := initial;
    }

    method Add(entry: HistoryEntry)
      modifies this
      ensures entries == old(entries) + [entry]
    {
      entries := entries + [entry];
    }
  }

  /** What the handler answers: the rendered results (with the missing-key warning or not), or a server error. */
  datatype Page = Rendered(results: seq<VideoResult>, missingKeyWarning: bool) | ServerError

  /** The pipeline arguments `garimpo` can pass: the ones the pipeline declares. */
  function SearchArgsOf(inputs: Inputs): (a: SearchArgs)
    ensures a.query == inputs.query && a.maxResults == inputs.limit
    ensures a.publishedAfter == inputs.window.after
    ensures a.filters.minViews == inputs.minViews && a.filters.minSubs == inputs.minSubs
    ensures a.filters.maxViews.None?
    ensures a.filters.maxSubs.Some? <==> inputs.maxSubs.Some?
    ensures inputs.maxSubs.Some? ==> a.filters.maxSubs.value == inputs.maxSubs.value
  {
    var ceiling: Option<int> := if inputs.maxSubs.Some? then Some(inputs.maxSubs.value) else None;
    SearchArgs(inputs.query, inputs.limit, inputs.window.after, Filters(inputs.minViews, None, inputs.minSubs, ceiling))
  }

  /**
   * The search a `garimpo` request runs, if any: only for a POST whose form
   * parses, with an API key and a non-empty query.
   */
  function GarimpoSearch(form: Option<Form>, apiKey: string, now: int): (r: Option<SearchArgs>)
    ensures r.Some? <==>
      form.Some? && ParseForm(form.value, now).Some? && apiKey != "" && ParseForm(form.value, now).value.query != ""
    ensures r.Some? ==> r.value == SearchArgsOf(ParseForm(form.value, now).value) && r.value.query != ""
  {
    if form.None? then None
    else
      var inputs := ParseForm(form.value, now);
      if inputs.None? || apiKey == "" || inputs.value.query == "" then None
      else Some(SearchArgsOf(inputs.value))
  }

  /** The page of a `garimpo` request that runs no search. */
  function PageWithoutSearch(form: Option<Form>, apiKey: string, now: int): (p: Page)
    requires GarimpoSearch(form, apiKey, now).None?
    ensures p.ServerError? <==> form.Some? && ParseForm(form.value, now).None?
    ensures p.Rendered? ==> p.results == [] && (p.missingKeyWarning <==> form.Some? && apiKey == "")
  {
    if form.None? then Rendered([], false)
    else if ParseForm(form.value, now).None? then ServerError
    else Rendered([], apiKey == "")
  }

  /**
   * `garimpo` (GET when `form` is None), with the pipeline called with the
   * parameters it declares. A request that runs no search changes nothing;
   * one that does sends the run's requests, commits its rows, records the
   * query for `userId` and shows the run's results best score first.
   */
  method Garimpo(client: Client, table: ChannelTable, history: SearchHistory, userId: nat,
                 apiKey: string, form: Option<Form>, now: int)
    returns (page: Page, ghost channelOrder: seq<string>)
    modifies client, table, history
    ensures GarimpoSearch(form, apiKey, now).None? ==>
      && page == PageWithoutSearch(form, apiKey, now)
      && client.calls == old(client.calls) && table.rows == old(table.rows) && history.entries == old(history.entries)
    ensures GarimpoSearch(form, apiKey, now).Some? ==>
      var a := GarimpoSearch(form, apiKey, now).value;
      var run := Run(client.endpoints, apiKey, a, channelOrder, old(table.rows), now);
      && ChannelOrderFits(client.endpoints, apiKey, a, channelOrder)
      && page == Rendered(SortByScore(run.results), false)
      && client.calls == old(client.calls) + run.calls
      && table.rows == run.rows
      && history.entries == old(history.entries) + [HistoryEntry(a.query, userId)]
  {
    channelOrder := [];
    if GarimpoSearch(form, apiKey, now).None? {
      return PageWithoutSearch(form, apiKey, now), channelOrder;
    }
    var inputs := ParseForm(form.value, now).value;
    var results;
    results, channelOrder := SearchYoutubeVideos(client, table, apiKey, SearchArgsOf(inputs), now);
    results := SortByScore(results);
    history.Add(HistoryEntry(inputs.query, userId));
    page := Rendered(results, false);
  }

  /**
   * What `garimpo` shows is the run's list reordered: the same results,
   * descending by score, ties in pipeline order, each within the form's
   * floors and ceiling.
   */
  lemma GarimpoShowsSortedRun(e: Endpoints, apiKey: string, form: Form, channelOrder: seq<string>,
                              rows: map<string, ChannelRow>, now: int)
    requires GarimpoSearch(Some(form), apiKey, now).Some?
    ensures var a := GarimpoSearch(Some(form), apiKey, now).value;
      var shown := SortByScore(Run(e, apiKey, a, channelOrder, rows, now).results);
      && Descending(shown)
      && multiset(shown) == multiset(Run(e, apiKey, a, channelOrder, rows, now).results)
      && forall r :: r in shown ==> Passes(r.views, r.subscribers, a.filters)
  {
    var a := GarimpoSearch(Some(form), apiKey, now).value;
    var results := Run(e, apiKey, a, channelOrder, rows, now).results;
    SortByScoreIsStableSort(results);
    RunResultsAreJoinedFilteredScored(e, apiKey, a, channelOrder, rows, now);
    forall r | r in SortByScore(results)
      ensures r in results
    {
      assert r in multiset(SortByScore(results));
    }
  }

  /** The fixed search of `promissores`: channels of at most 100000 subscribers. */
  const PromissoresArgs: SearchArgs := SearchArgs("estratégia youtube", 50, None, Filters(0, None, 0, Some(100000)))

  /** `promissores`: nothing without an API key; otherwise the run's promising results, best score first. */
  method Promissores(client: Client, table: ChannelTable, apiKey: string, now: int)
    returns (results: seq<VideoResult>, ghost channelOrder: seq<string>)
    modifies client, table
    ensures apiKey == "" ==>
      results == [] && client.calls == old(client.calls) && table.rows == old(table.rows)
    ensures apiKey != "" ==>
      var run := Run(client.endpoints, apiKey, PromissoresArgs, channelOrder, old(table.rows), now);
      && ChannelOrderFits(client.endpoints, apiKey, PromissoresArgs, channelOrder)
      && results == Promising(run.results)
      && client.calls == old(client.calls) + run.calls
      && table.rows == run.rows
  {
    channelOrder := [];
    results := [];
    if apiKey != "" {
      results, channelOrder := SearchYoutubeVideos(client, table, apiKey, PromissoresArgs, now);
      results := Promising(results);
    }
  }

  /**
   * Every result `promissores` shows is from a channel of at most 100000
   * subscribers that is at most 90 days old, and the list is best score first.
   */
  lemma PromissoresShowsSmallYoungChannels(e: Endpoints, apiKey: string, channelOrder: seq<string>,
                                           rows: map<string, ChannelRow>, now: int)
    ensures var shown := Promising(Run(e, apiKey, PromissoresArgs, channelOrder, rows, now).results);
      && Descending(shown)
      && forall r :: r in shown ==>
        && r.subscribers <= 100000
        && r.channelCreatedAt.Some? && now - r.channelCreatedAt.value < 91 * MicrosPerDay
  {
    var results := Run(e, apiKey, PromissoresArgs, channelOrder, rows, now).results;
    RunResultsAreJoinedFilteredScored(e, apiKey, PromissoresArgs, channelOrder, rows, now);
    PromisingIsSortedSelection(results);
  }

  // -------------------------------------------------- keyword binding

  /** The keyword parameters `search_youtube_videos` declares. */
  const DeclaredKeywords: set<string> :=
    {"api_key", "query", "max_results", "published_after", "min_views", "max_views", "min_subs", "max_subs", "deep_analysis"}

  /** The keywords `garimpo` passes to it. */
  const GarimpoKeywords: set<string> :=
    {"api_key", "query", "max_results", "published_after", "published_before", "region_code",
     "relevance_language", "min_views", "min_likes", "min_subs", "max_subs"}

  /** The keywords the corrected `garimpo` call passes: those of the written call that the pipeline declares. */
  const CorrectedGarimpoKeywords: set<string> :=
    {"api_key", "query", "max_results", "published_after", "min_views", "min_subs", "max_subs"}

  /** The keywords `promissores` passes. */
  const PromissoresKeywords: set<string> := {"api_key", "query", "max_results", "max_subs"}

  /**
   * Binding keyword arguments to the declared parameters. A failed binding
   * carries every undeclared keyword.
   */
  datatype Binding = Bound | TypeError(unexpected: set<string>)

  function Bind(passed: set<string>): (b: Binding)
    ensures b.Bound? <==> passed <= DeclaredKeywords
    ensures b.TypeError? ==> b.unexpected != {} && b.unexpected <= passed && b.unexpected !! DeclaredKeywords
  {
    if passed <= DeclaredKeywords then Bound else TypeError(passed - DeclaredKeywords)
  }

  /**
   * The page `garimpo` as written answers with, for a run against `e` in
   * the channel order `channelOrder` over the table `rows`: what the
   * corrected handler shows, provided its search call binds.
   */
  function GarimpoAsWritten(form: Option<Form>, apiKey: string, now: int, e: Endpoints, channelOrder: seq<string>,
                            rows: map<string, ChannelRow>): (p: Page)
    ensures GarimpoSearch(form, apiKey, now).None? ==> p == PageWithoutSearch(form, apiKey, now)
    ensures GarimpoSearch(form, apiKey, now).Some? ==>
      (p.Rendered? <==> Bind(GarimpoKeywords).Bound?) &&
      (p.Rendered? ==>
        p == Rendered(SortByScore(Run(e, apiKey, GarimpoSearch(form, apiKey, now).value, channelOrder, rows, now).results), false))
  {
    var search := GarimpoSearch(form, apiKey, now);
    if search.None? then PageWithoutSearch(form, apiKey, now)
    else if Bind(GarimpoKeywords).Bound? then
      Rendered(SortByScore(Run(e, apiKey, search.value, channelOrder, rows, now).results), false)
    else ServerError
  }

  /**
   * As written, every `garimpo` request that reaches the search raises
   * TypeError there, for the four keywords the pipeline does not declare,
   * and the page fails.
   */
  lemma GarimpoAsWrittenFailsEverySearch(form: Option<Form>, apiKey: string, now: int, e: Endpoints,
                                         channelOrder: seq<string>, rows: map<string, ChannelRow>)
    requires GarimpoSearch(form, apiKey, now).Some?
    ensures Bind(GarimpoKeywords) == TypeError({"published_before", "region_code", "relevance_language", "min_likes"})
    ensures GarimpoAsWritten(form, apiKey, now, e, channelOrder, rows) == ServerError
  {
    assert "published_before" !in DeclaredKeywords;
    assert GarimpoKeywords - DeclaredKeywords == {"published_before", "region_code", "relevance_language", "min_likes"};
  }

  /**
   * The corrected call drops exactly the undeclared keywords of the written
   * one, so it binds; the `promissores` call binds too.
   */
  lemma CorrectedCallsBind()
    ensures CorrectedGarimpoKeywords == GarimpoKeywords * DeclaredKeywords
    ensures Bind(CorrectedGarimpoKeywords) == Bound
    ensures Bind(PromissoresKeywords) == Bound
  {
  }
}
