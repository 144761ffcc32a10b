# YouTube channel discovery ("YouTube sem sofrimento") in Dafny

This project models the core of a small Flask application. The application searches YouTube for videos on a
topic, looks up the statistics of those videos and of their channels, and ranks small channels as
"opportunities". Every channel of a video that passes the filters is saved in a `Channel` table.

The model covers:

- **`search_youtube_videos`** (`app/utils.py`), modelled in the module `Pipeline`. The run goes through these steps:
  - the search;
  - video lookups in slices of 50 ids;
  - the channel ids, without duplicates;
  - channel lookups in slices of 50 ids;
  - the per-video loop: join, floors and ceilings, tier, score, upsert of the channel row, result;
  - a single commit at the end.

  The remote service is a `YouTubeApi.Client` object. Its answers come from oracle functions that may fail, and it
  keeps a log of every request it sends. The `Channel` table is a map from `youtube_id` to a row, committed in
  one assignment.
  - `Pipeline.SearchYoutubeVideos` is proved equal to the specification function `Pipeline.Run`.
  - `PipelineFacts` proves what the run guarantees: slicing, deduplication, join, filters, score, tier, the rows
    written and the abort paths.
- **`format_number`** (module `NumberFormat`). It is proved to be read back as the exact number, or as the right
  number of thousands or millions to within half a tenth.
- **`garimpo`** (`app/routes.py`):
  - the form parsing (module `GarimpoForm`);
  - the publication window given by the period button and the explicit dates (module `Window`);
  - the search, the descending score sort and the search-history row (module `Routes`).
- **`promissores`**: a fixed search, then the tier filter and the sort (modules `Routes` and `Ranking`).
- **The user administration rules** (module `Users`): only administrators act, usernames are unique, and the
  user named `admin` cannot be deleted.

Conventions:

- **Time** is an integer count of microseconds since the epoch (UTC). Microseconds are needed because
  `now.replace(hour=0, minute=0, second=0)` keeps them.
- **A channel's age in days** is `(now - created) / MicrosPerDay`. This is floor division, like `timedelta.days`.
- **Scores** are whole numbers of tenths: a score of 50.0 is 500.
- **The opportunity tier** is a datatype, `Scoring.Tier`. `Scoring.Label` gives the Portuguese label that the
  pages compare against.
- **Python's `list(set(...))` order** of channel ids is unspecified. `Pipeline.CollectChannelIds` chooses it,
  the pipeline method returns it as a ghost value, and `Run` takes it as a parameter.

Behaviour of the code worth noting:

- Any failure of a video or channel lookup aborts the whole run: it returns `[]` and commits nothing. A
  channel item without an `id`, or a snippet without a `channelId`, aborts it too. The per-video `try`
  only protects the loop over videos.
- `search_youtube_videos` filters on views and subscribers only; it takes no like-count bound and no upper
  date bound.
- It returns the result list alone; errors are printed, not returned.

## Model

| member | source | states |
|---|---|---|
| Decimal.IntToString | app/utils.py:138 | `str(i)`: at least one character, the last a digit, and a leading '-' exactly for negative numbers |
| Decimal.ParseInt | app/routes.py:44-48 | `int(text)` succeeds iff the text is an optional sign followed by at least one digit, and then gives the digits' base-10 value, negated after '-' |
| Decimal.DigitsValueLeadingZero | app/routes.py:44-48 | a leading zero does not change the value of a digit string |
| Decimal.ParseIntLeadingZero | app/routes.py:44-48 | `int()` reads "007" as 7: leading zeros are ignored |
| Decimal.ParseIntSignedLeadingZero | app/routes.py:44-48 | the same after a sign: "-07" reads as -7 and "+07" as 7 |
| Decimal.DigitsValueOfNatToString | app/utils.py:138 | reading the digits `str(n)` prints gives back n |
| Decimal.ParseNatural | app/routes.py:44-48 | `int()` of a natural number's digits gives the number back |
| Decimal.ParseNegative | app/routes.py:44-48 | `int()` of '-' and a positive number's digits gives the negative number |
| Decimal.ParseIntOfIntToString | app/routes.py:44-48 | `int(str(i)) == i` for every integer |
| Scoring.LabelInjective | app/utils.py:83-88 | the three opportunity labels are distinct strings, so comparing labels compares tiers |
| Scoring.DaysOld | app/utils.py:86 | whole days elapsed, rounded down: d days means between d and d+1 days passed |
| Scoring.TierOf | app/utils.py:83-88 | Great iff dated less than 31 days ago (future dates included), Good iff 31 to 91 days, Saturated iff undated or older; exactly one tier |
| Scoring.OlderNeverRanksHigher | app/utils.py:84-88 | an older channel never gets a better tier than a younger one |
| Scoring.LaterNeverRanksHigher | app/utils.py:84-88 | a channel's tier never improves as time passes |
| Scoring.ScoreTenths | app/utils.py:90 | 0 without subscribers, otherwise the nearest number of tenths to views/subs*100 |
| Scoring.ScoreMonotoneInViews | app/utils.py:90 | more views on the same channel never lower the score |
| Filters.PassesIffWithinBounds | app/utils.py:77-80 | a video passes iff each floor is 0 or met and each ceiling is None, 0 or respected |
| Filters.LooserStillPasses | app/utils.py:77-80 | loosening any bound never rejects a video that passed |
| Filters.NoFiltersPassAll | app/utils.py:77-80 | with the default arguments every video passes |
| NumberFormat.TenthsOf | app/utils.py:136-137 | the number of tenths of the unit nearest to n |
| NumberFormat.OneDecimal | app/utils.py:136-137 | digits, a point and one digit |
| NumberFormat.FormatNumber | app/utils.py:133-140 | "0" for a non-number; the suffix is M iff n >= 1000000 and K iff 1000 <= n < 1000000 |
| NumberFormat.FormatNumberReadsBack | app/utils.py:133-140 | the text reads back as n exactly below 1000, else as M or K tenths within half a tenth of n |
| ChannelStore.Upsert | app/utils.py:93-106 | the row under the id is reused or created and carries every field of the update; other rows, `view_count` and `is_promising` are untouched |
| ChannelStore.UpsertIdempotent | app/utils.py:93-106 | writing the same update twice equals writing it once |
| ChannelStore.UpsertLastWriteWins | app/utils.py:93-106 | of two writes to one channel the later one decides the row |
| ChannelStore.ChannelTable.constructor | app/models.py:29-43 | the table holds the given rows |
| YouTubeApi.CountValue | app/utils.py:71-73 | a missing counter is 0, a numeral is its value, and only a garbled one raises |
| YouTubeApi.Client.constructor | app/utils.py:17-19 | a client with the given service and no requests sent |
| YouTubeApi.Client.Search | app/utils.py:32 | logs the search request and returns the service's answer |
| YouTubeApi.Client.Videos | app/utils.py:43-46 | logs the video lookup and returns the service's answer |
| YouTubeApi.Client.Channels | app/utils.py:54-57 | logs the channel lookup and returns the service's answer |
| Batching.Batch | app/utils.py:41-42 | a slice holds between 1 and 50 ids |
| Batching.BatchesFromCount | app/utils.py:41-42 | from position i there are ceil((n-i)/50) slices, each of 1 to 50 ids |
| Batching.BatchesFromFlatten | app/utils.py:41-42 | the slices from position i concatenate to the ids from i on |
| Batching.BatchesShape | app/utils.py:52-53 | the slices of a list are ceil(n/50) slices of 1 to 50 ids that concatenate to the list |
| Pipeline.VideoIds | app/utils.py:37 | the ids exist iff every search item has one, and then the k-th id is the k-th item's `videoId` |
| Pipeline.ChannelIdSet | app/utils.py:50 | the channel ids are exactly those of the videos with a snippet; a snippet without one raises |
| Pipeline.Evaluate | app/utils.py:62-123 | a video writes a row iff its channel was fetched, its counters convert, it passes the filters and its channel date parses; the row gets the video's `channelTitle`, the channel's thumbnail, counts and date, their score and tier and the time; a result is emitted iff the video also has an id and `publishedAt`, and carries the video's id, date and views and the row's subscribers, date, score and tier |
| Pipeline.FetchVideoSlice | app/utils.py:42-46 | sends one video lookup for the slice at i and returns the service's answer |
| Pipeline.FetchVideoItems | app/utils.py:40-47 | sends the video slices in order and returns the concatenated items, or stops at the first failure; equals `VideosFrom` |
| Pipeline.AddReplyChannels | app/utils.py:58-59 | the loop equals `AddChannels`: each channel item entered under its id, raising on an item without one (both proved in `AddChannelsKeyedById`) |
| Pipeline.FetchChannelSlice | app/utils.py:53-59 | sends one channel lookup for the slice at i and adds its items to the map, or fails |
| Pipeline.FetchChannelInfo | app/utils.py:51-59 | sends the channel slices in order and fills the map, or stops at the first failure; equals `ChannelsFrom` |
| Pipeline.CollectChannelIds | app/utils.py:50 | the listed channel ids have no duplicates and are exactly the set of the videos' channel ids |
| Pipeline.ResultsRowsStep | app/utils.py:61-125 | one more video appends its result, if any, to the results and applies its row update |
| Pipeline.ProcessVideos | app/utils.py:61-125 | the results and staged rows of the loop equal `Results` and `Rows` |
| Pipeline.FetchVideoStage | app/utils.py:17-47 | builds the client, searches and looks up the videos, sending exactly the requests of `VideoStage` and returning its videos, or None where the source returns `[]` |
| Pipeline.SearchYoutubeVideos | app/utils.py:16-131 | the requests sent, the list returned and the committed table are those of `Run` |
| PipelineFacts.VideoLookupsFollowSlices | app/utils.py:40-47 | the video lookups are a prefix of the slices, and all of them when no lookup fails |
| PipelineFacts.ChannelLookupsFollowSlices | app/utils.py:51-59 | the channel lookups are a prefix of the slices, and all of them when no lookup fails |
| PipelineFacts.VideosFromKeepsReplies | app/utils.py:40-47 | the video lookups succeed iff every lookup answers, and then their videos are the replies' items concatenated in slice order |
| PipelineFacts.VideoStageKeepsReplies | app/utils.py:17-47 | the video stage yields videos iff there is a client, the search answers with hits that all carry an id, and every video lookup answers; the videos are then the lookup replies' items in slice order |
| PipelineFacts.VideoStageRequests | app/utils.py:17-47 | no request without a client; the search first; a failed or empty search is the only request; then a prefix of the video slices, all ceil(n/50) of them when none fails |
| PipelineFacts.RunCallsAreStages | app/utils.py:16-59 | a run's requests are those of the video stage followed by the channel lookups, which happen only when the stage and the channel ids succeed |
| PipelineFacts.RunRequests | app/utils.py:16-59 | the video stage's requests come first, then a prefix of the channel slices, and nothing follows a failed video stage |
| PipelineFacts.ChannelRequestsAreDistinct | app/utils.py:50-53 | the channel slices hold 1 to 50 ids each, concatenate to the channel ids, and no id is looked up twice |
| PipelineFacts.DistinctCount | app/utils.py:50 | a list without repeats has as many distinct elements as entries |
| PipelineFacts.ChannelStageRequests | app/utils.py:50-59 | after a successful video stage the channel lookups are a prefix of the slices of the channel ids, exactly ceil(k/50) of them for k distinct channel ids when none fails |
| PipelineFacts.AddChannelsKeyedById | app/utils.py:58-59 | filing a reply succeeds iff every item has an id; then the map stays keyed by channel id, keeps every earlier key, holds the id of every item, and every entry is an earlier one or an item of the reply |
| PipelineFacts.ChannelsFromKeyedById | app/utils.py:51-59 | the map is filled iff every lookup answers and every item has an id; then it is keyed by channel id, holds the id of every item of every reply, and every new entry is an item of one of the replies |
| PipelineFacts.ChannelKeysAreRepliedIds | app/utils.py:51-59 | an id is a key of the filled channel map iff some lookup's reply carried an item with that id |
| PipelineFacts.RunJoinsRepliedChannels | app/utils.py:51-69 | in a run whose stages succeed, a fetched video with a channel id finds its channel iff a channel reply carried an item with that id |
| PipelineFacts.AbortedRunChangesNothing | app/utils.py:129-131 | a failure outside the per-video loop returns [] and commits nothing |
| PipelineFacts.ResultsAreJoinedFilteredScored | app/utils.py:62-123 | every result carries its fetched channel's subscribers and creation date and the id and views of a video on that channel, passed the filters, and has the score and tier of those numbers; no more results than videos |
| PipelineFacts.RunResultsAreJoinedFilteredScored | app/utils.py:16-131 | a run returns results only when both lookup stages succeed, no more than the videos fetched, each joined to those videos and channels, filtered and scored as above; the channel map is keyed by channel id and the entry read for a result is the reply item of that very channel |
| PipelineFacts.EvaluateUnderLooserFilters | app/utils.py:77-80 | a video kept under tight bounds is processed identically under looser ones |
| PipelineFacts.KeepPassingSnoc | app/utils.py:77-80 | filtering a list with one more result keeps that result iff it passes |
| PipelineFacts.TighterResultsAreFilteredLooserResults | app/utils.py:77-80 | the results under tight bounds are the results under looser bounds that pass the tight ones, in the same order |
| PipelineFacts.LooserResultsKeepTighterOnes | app/utils.py:77-80 | loosening a bound never loses a result |
| PipelineFacts.RowsWrittenExactly | app/utils.py:93-106 | rows are added exactly for the channels the loop writes, only fetched ones, and other rows are unchanged |
| PipelineFacts.LastWriterDecidesRow | app/utils.py:93-106 | a channel's row holds the update (title, counts, date, score, tier) of the last video on it that reached `db.session.add` |
| PipelineFacts.LateFailureStillWritesRow | app/utils.py:106-114 | a video that reaches `db.session.add` but lacks `publishedAt` writes its channel's row and gives no result |
| PipelineFacts.FilteredVideoWritesNothing | app/utils.py:77-80 | a video the filters reject writes no row and gives no result |
| PipelineFacts.ResultsOfTwo | app/utils.py:61-123 | the results of two videos are the first one's result, if any, followed by the second one's |
| PipelineFacts.ScenarioFirstVideo | app/utils.py:62-123 | 500 views on a channel with 1000 subscribers created 10 days ago scores 50.0 and is Great |
| PipelineFacts.ScenarioSecondVideo | app/utils.py:62-123 | a video on a channel with 0 subscribers created 200 days ago scores 0 and is Saturated |
| PipelineFacts.TwoChannelScenario | app/utils.py:62-123 | the two videos give two results in order, with scores 50.0 and 0 and tiers Great and Saturated |
| PipelineFacts.ScenarioFloorDropsBoth | app/utils.py:79 | a floor of 5000 subscribers drops both videos |
| PipelineFacts.ScenarioMissingChannel | app/utils.py:66-69 | a video whose channel was not fetched is dropped and the other one stays |
| Ranking.InsertByScorePermutes | app/routes.py:94 | inserting adds exactly the one result |
| Ranking.InsertByScoreHead | app/routes.py:94 | inserting adds one element, and the new head is the inserted result or the old head |
| Ranking.ConsDescending | app/routes.py:94 | a result no lower than a descending list's head, put in front of it, keeps the list descending |
| Ranking.InsertByScoreDescending | app/routes.py:94 | inserting into a descending list keeps it descending |
| Ranking.WithScoreCons | app/routes.py:94 | the results of score k in a list with x in front are x, if its score is k, followed by those of the rest |
| Ranking.InsertByScoreWithScore | app/routes.py:94 | the inserted result goes before the results of equal score |
| Ranking.SortByScoreIsStableSort | app/routes.py:94 | the sort is a permutation, descending by score, and keeps the order of equal scores |
| Ranking.SortByScoreOfDescending | app/routes.py:94 | a descending list is left as it is |
| Ranking.SortByScoreIdempotent | app/routes.py:94 | sorting twice equals sorting once |
| Ranking.KeepPromisingDropsSaturated | app/routes.py:127 | keeping the two labels keeps exactly the results that are not Saturated |
| Ranking.PromisingIsSortedSelection | app/routes.py:127-128 | `promissores` lists exactly the Great and Good results, descending, ties in pipeline order |
| Window.AtClock | app/routes.py:56-60 | `replace(hour, minute, second)` keeps the day and the microseconds and sets the clock |
| Window.PeriodBounds | app/routes.py:54-66 | today: after only, today's midnight plus now's microseconds; yesterday: 00:00:00 to 23:59:59 of yesterday; week/month/year: now minus 7/30/365 days; anything else: no bounds |
| Window.SameMicros | app/routes.py:58-60 | going back one day lowers the day number by one and keeps the microseconds |
| Window.ResolveWindow | app/routes.py:50-71 | an unparseable date raises; a start date replaces the after bound and an end date the before bound; blank dates keep the period's |
| Window.DatesOverrideButton | app/routes.py:68-71 | with both dates given, the button and the clock do not matter |
| Window.PeriodBoundsNotInFuture | app/routes.py:54-66 | the after bound is never later than now and yesterday's end is before today |
| GarimpoForm.IntField | app/routes.py:44-48 | a blank field gives the default; otherwise `int()` of the text, raising when it does |
| GarimpoForm.IntFieldReadsPrinted | app/routes.py:44-48 | a printed integer reads back, and absent or empty fields give the default |
| GarimpoForm.MaxSubsField | app/routes.py:73 | a ceiling exists iff the field is non-empty and all digits, and it is their value |
| GarimpoForm.MaxSubsFieldReadsPrinted | app/routes.py:73 | a count written in digits reads back; a signed one gives no ceiling |
| GarimpoForm.ParseForm | app/routes.py:38-73 | the form parses iff no `int()` or `strptime` raises, and then gives each field's value |
| GarimpoForm.EmptyFormDefaults | app/routes.py:44-48 | an empty form gives floors 0, no ceiling, limit 50 and no window |
| Routes.SearchHistory.constructor | app/models.py:23-27 | the history holds the given entries |
| Routes.SearchHistory.Add | app/routes.py:97-99 | appends one entry |
| Routes.SearchArgsOf | app/routes.py:79-91 | the search uses the form's query, limit, after bound, view floor and subscriber floor and ceiling, and no view ceiling |
| Routes.GarimpoSearch | app/routes.py:76-78 | a search runs iff the request is a POST whose form parses, with an API key and a non-empty query |
| Routes.PageWithoutSearch | app/routes.py:76-78 | without a search: a server error iff the form fails to parse, otherwise no results and the warning iff the key is missing |
| Routes.Garimpo | app/routes.py:21-113 | with no search nothing changes; with one, the run's requests and rows, results sorted by score, and one history entry |
| Routes.GarimpoShowsSortedRun | app/routes.py:93-94 | the page shows the run's results, descending by score, each within the form's bounds |
| Routes.Promissores | app/routes.py:115-130 | nothing without an API key; otherwise the fixed search's promising results, best first |
| Routes.PromissoresShowsSmallYoungChannels | app/routes.py:121-128 | every listed channel has at most 100000 subscribers and is under 91 days old, and the list is descending |
| Routes.Bind | app/utils.py:16 | a call binds iff every keyword is declared; otherwise the failure carries the undeclared ones |
| Routes.GarimpoAsWritten | app/routes.py:76-99 | `garimpo` as written renders iff its call binds, and then shows the run's results sorted by score, as the corrected handler does |
| Routes.GarimpoAsWrittenFailsEverySearch | app/routes.py:79-91 | every request that reaches the search raises TypeError, whose undeclared keywords are exactly `published_before`, `region_code`, `relevance_language` and `min_likes` |
| Routes.CorrectedCallsBind | app/routes.py:79-126 | the corrected `garimpo` call passes the written call's keywords minus the undeclared ones and binds; the `promissores` call binds |
| Users.UserTable.constructor | app/models.py:10-15 | an empty user table |
| Users.UserTable.CreateUser | app/routes.py:149-165 | non-admins are denied and an existing username is refused, both changing nothing; otherwise exactly one user is added; usernames stay unique |
| Users.UserTable.DeleteUser | app/routes.py:173-183 | non-admins are denied, an unknown id is not found, the user `admin` is kept, and any other user is removed; usernames stay unique |

## Left out

- Network and client construction: the Google API client, `build()` and `.execute()` are oracle functions with a
  failure case. Which exception occurs and the printed messages are not modelled.
- Routes.Bind: a failed binding carries the set of undeclared keywords; the order of keywords in the call, and so
  which one CPython's TypeError message names, is not modelled.
- Date handling: `datetime.utcnow()`, `strptime`, `strftime` and ISO strings are not modelled.
  - Instants are integers.
  - A date the parser rejects is a distinct value.
  - Result dates are kept as instants, not formatted `%d/%m/%Y` text.
- Evaluate: the source calls `utcnow()` up to twice per processed video, for `days_old` (app/utils.py:86) and
  for `last_updated` (app/utils.py:104). The model uses one `now` for the whole run.
- ScoreTenths: does not model float rounding; ties are rounded half up, not with `round()`'s behaviour on floats.
- NumberFormat.FormatNumber: does not model `.1f` ties on floats; halves are rounded up.
- Decimal.ParseInt: `int()` is modelled on ASCII digits with an optional sign. Surrounding whitespace,
  underscores and non-ASCII digits, which `int()` also accepts, are not modelled.
- Numeric conversions:
  - YouTubeApi.CountValue: counters are natural numbers. A negative numeral in a reply is not modelled.
  - GarimpoForm.IntField: `int()` is modelled on ASCII digits with an optional sign. Surrounding whitespace,
    underscores and non-ASCII digits are not modelled.
  - GarimpoForm.MaxSubsField: `isdigit()` is modelled on ASCII digits only.
- Database behaviour:
  - the NOT NULL constraint on `Channel.title` (a video without `channelTitle`) is not modelled;
  - SQLAlchemy autoflush, transactions and the database ids of `Channel` rows are not modelled;
  - new user ids come from a counter rather than from SQLite.
- Channel row fields:
  - `view_count` is never written by the source, so it stays as it was.
  - `is_promising` keeps its value.
- The `deep_analysis` parameter is declared by `search_youtube_videos` but never used. It is not modelled.
- Form fields that are only echoed back to the template are not modelled: `language` and `region`. Likewise
  `published_before`, which is computed but cannot reach the pipeline. `min_likes` is parsed (so its parse
  error is modelled) but not used.
- Users.UserTable.CreateUser: a missing username or password field (an integrity error), password hashing
  (`set_password`), login and `check_password` are not modelled.
- Flask plumbing is not modelled: rendering, `flash`, redirects, `login_required`, the `index`, `dashboard` and
  `configuracoes` routes, config loading, the app factory, admin seeding and the server start.
- Concurrency between requests is not modelled.

## Findings

| source | as written | input that shows it | evidently intended | confidence | as-written member | corrected member |
|---|---|---|---|---|---|---|
| app/routes.py:79-91 | `garimpo` calls `search_youtube_videos` with `published_before`, `region_code`, `relevance_language` and `min_likes`, which app/utils.py:16 does not declare, so the call raises TypeError | any POST with a non-empty query while an API key is configured | run the search with the form's query, limit, after bound and view and subscriber bounds; sort the results; record the query in the history | high; not executed | Routes.GarimpoAsWrittenFailsEverySearch | Routes.Garimpo |
