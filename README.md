# Brasileirão dashboard — a verified model of its data logic

The system is a small web dashboard for Brazil's Série A football league. This project models in
Dafny the parts of it that compute something. On the backend (`backend/server.js`) those are:

- the in-memory cache with a time to live per entry and eviction on read;
- the cache keys the routes build;
- the filter that keeps in-play matches;
- the four cached routes;
- the all-time ranking, which sums every season's TOTAL table from 2015 on per club name, derives
  the goal difference, sorts by points and reuses a cache file younger than a day.

On the frontend:

- the team page's statistics: results, points, last-five form, home/away split, cumulative points
  and recent highlights;
- the matches page's filter, filter changes, team options and round options;
- the live page's goal detection and its single reconnection timer;
- the base URL and URL joining of the HTTP service, and its error interceptor;
- the home page's live strip, season buttons, table state and retry token.

Modules, one per file:

| file | module | what it holds |
|---|---|---|
| `wrappers.dfy` | `Wrappers` | `Option` |
| `sequences.dfy` | `Sequences` | `Array.prototype.filter` and `Set` de-duplication, with their facts |
| `sorting.dfy` | `Sorting` | `Array.prototype.sort` as a stable insertion sort under a given ordering |
| `numerals.dfy` | `Numerals` | decimal rendering of integers and the part of `Number(string)` the pages use |
| `football.dfy` | `Football` | matches, standings rows, and a result read from one team's side |
| `cache.dfy` | `TtlCache` | the cache as a class over a map, plus the functions that specify it |
| `server.dfy` | `Server` | cache keys, the in-play filter, the cached routes |
| `ranking.dfy` | `Ranking` | `/api/ranking`: accumulator class, fold, derive, sort, staleness |
| `team.dfy` | `TeamStats` | the team page's statistics |
| `matches.dfy` | `MatchesPage` | the matches page's filter and option lists |
| `live.dfy` | `LivePage` | the live page's score memory and reconnection guard |
| `api.dfy` | `ApiService` | base URL, `getApiUrl`, error interceptor |
| `home.dfy` | `HomePage` | live strip, season buttons, table state, retry token |

Where the code works by mutation, the model is imperative:

- the cache, the ranking accumulator and the live page are classes with `modifies` clauses;
- the loops of the team page, the team options and the score memory are `for` loops with invariants;
- each method is proved equal to a specification function, and the properties are lemmas about that
  function.

The clock, the upstream responses, the cache file and the local history file are all parameters. A route
reads the cache at the time its request arrives and writes it at a later time, once the upstream
answer is back, because `setCache` reads the clock again.

## Model

| member | source | states |
|---|---|---|
| TtlCache.Cache.constructor | backend/server.js:20 | the cache starts empty |
| TtlCache.Cache.Set | backend/server.js:21-23 | stores `data` under `key`, expiring `ttl * 1000` ms after `now` (default 60 s); overwrites any entry for the key; every other key keeps its entry |
| TtlCache.Cache.Get | backend/server.js:24-32 | returns the data when the key is present and `now` is not strictly past its expiry; returns nothing otherwise; deletes exactly the expired key |
| TtlCache.ReadUnknownKey | backend/server.js:24-26 | a key never stored reads as absent, and the read changes nothing |
| TtlCache.ReadAfterStore | backend/server.js:21-31 | after a store at `t` with time to live `ttl`, a read at `now` returns the data if and only if `now <= t + ttl*1000`, whatever was stored before |
| TtlCache.ExpiredReadEvicts | backend/server.js:27-30 | reading an expired entry returns nothing and removes that key; all other keys are unchanged |
| TtlCache.ReadsAreIndependent | backend/server.js:24-31 | a read of one key never changes what a read of another key returns |
| TtlCache.DefaultTtlIsOneMinute | backend/server.js:21-22 | without a time to live, an entry is served 60 000 ms after storing and gone 1 ms later |
| TtlCache.StandingsScenario | backend/server.js:21-31 | an entry stored for 120 s is served 119 s and 120 s later, and is absent and evicted at 121 s |
| Server.MatchesKey | backend/server.js:57 | `matches-<matchday>` for a non-empty matchday, else `matches-live` for a non-empty `live`, else `matches-all` |
| Server.StaleFilteredAnswer | backend/server.js:57-73 | as written, a plain request for matchday 5 made after a `live=true` request for it is answered the cached in-play list, which differs from the full list whenever a match is not in play |
| Server.MatchesKeyCollides | backend/server.js:57-73 | the key as written is shared by requests whose payloads differ (see Findings) |
| Server.MatchesKeyFixed | backend/server.js:57-73 | the corrected key starts with `matches-` and carries the filter and the forwarded matchday |
| Server.MatchesKeyFixedSeparates | backend/server.js:57-73 | two requests share a corrected key if and only if they apply the same in-play filter and forward the same matchday |
| Server.SeasonStandingsKey | backend/server.js:183 | `standings-`, the season, a dash and the type, each at its place in the key |
| Server.FixedKeyAnswersEachRequest | backend/server.js:57-73 | under the corrected key, the same two requests are answered the in-play list and the full list |
| Server.SeasonStandingsKeySeparates | backend/server.js:183 | `standings-<season>-<type>` keys are equal if and only if season and type are, for dash-free seasons |
| Server.SeasonStandingsKeyCollides | backend/server.js:182-183 | route parameters with a dash make two different requests share a key: season `2020-2021` of type `TOTAL` and season `2020` of type `2021-TOTAL` |
| Server.LiveOnly | backend/server.js:94-96 | a match is kept if and only if it is in the list and `IN_PLAY` |
| Server.LiveOnlyKeepsExactlyInPlay | backend/server.js:68-71 | the live filter yields an ordered subsequence; it keeps each `IN_PLAY` match as often as it occurs and no other match |
| Server.ErrorStatus | backend/server.js:46-51 | a failed upstream request answers 429 if and only if upstream said 429, otherwise 500 |
| Sequences.Dedup | frontend/src/pages/Matches.jsx:52-53 | `Set` de-duplication: no element twice, and exactly the elements of the input |
| Sorting.InsertionSort | frontend/src/pages/Matches.jsx:48 | `sort`: the same elements, each as often, in a sequence of the same length |
| Sorting.FilterInsert | backend/server.js:172 | inserting an element keeps it ahead of every element selected together with it, the rest in their order |
| Sorting.FilterPastHead | backend/server.js:172 | a selected element that cannot be selected together with the head may move in front of it without changing what is selected |
| Sorting.InsertionSortStable | backend/server.js:172 | `sort` is stable: clubs tied on points leave the sort in the order they entered it |
| Server.HandleStandings | backend/server.js:35-53 | a cache hit at arrival answers the cached data; a miss answers upstream data and caches it for 120 s from the time it is stored; a failure answers 429 or 500 with its message and caches nothing |
| Server.MatchesPayload | backend/server.js:67-71 | only `live=true` filters: then the list holds exactly the in-play matches; otherwise it is the upstream list unchanged |
| Server.MatchesTtlFor | backend/server.js:73 | 30 s if and only if `live` is non-empty, otherwise 120 s |
| Server.MatchesFailure | backend/server.js:74-80 | a failure answers 429 if and only if upstream said 429, otherwise 500 |
| Server.ServeMatches | backend/server.js:58-81 | under a given key: a hit at arrival answers the cached payload; a miss answers and caches the payload for its time to live from the time it is stored; a failure caches nothing |
| Server.HandleMatches | backend/server.js:55-82 | the route as written: the above under `MatchesKey` |
| Server.HandleMatchesFixed | backend/server.js:55-82 | the same route under the corrected key |
| Server.HandleLive | backend/server.js:85-103 | answers the in-play matches and caches them for 30 s from the time they are stored; every failure is a 500 |
| Server.UpperAscii | backend/server.js:207 | `toUpperCase` on ASCII: same length, each lower-case letter becomes its capital, other characters unchanged |
| Server.UpperAsciiMatchesIgnoringCase | backend/server.js:207 | a type parameter upper-cases to a capitalised name exactly when it spells that name ignoring ASCII case |
| Server.StandingTypesIgnoreCase | backend/server.js:207 | the lookup finds TOTAL, HOME or AWAY from any casing of the type parameter, and only from those |
| Server.HandleSeasonStandings | backend/server.js:181-220 | cache hit; else a local history season, cached 1 h; else the upstream table of that type, cached 5 min only when non-empty; else an empty table, uncached; every time to live counts from the time of storing |
| Football.Classify | frontend/src/pages/Team.jsx:26-38 | with both scores present: win, draw or loss by comparing them; `null` against 0 is a loss, because `>` reads `null` as 0 and `===` does not |
| Football.OutcomeOf | frontend/src/pages/Team.jsx:26-38 | with both scores present, a draw if and only if the scores are equal, a win if and only if the team's own goals are more |
| Football.PointsFor | frontend/src/pages/Team.jsx:30-35 | 3 for a win, 1 for a draw, 0 for a loss |
| Football.FindTable | backend/server.js:131 | the table of the first standing of that type, or empty when none has it |
| Numerals.NatToString | frontend/src/pages/Live.jsx:51 | non-empty decimal digits without a leading zero |
| Numerals.NumberOf | frontend/src/pages/Matches.jsx:69-74 | a digit string (the empty string included) is a number; anything else is NaN |
| Numerals.NumberOfNatToString | frontend/src/pages/Matches.jsx:96-98 | an option value `String(n)` reads back as `n` |
| Numerals.NatToStringInjective | frontend/src/pages/Live.jsx:51-53 | two numbers render equal if and only if they are equal |
| Ranking.SeasonYears | backend/server.js:120-121 | the seasons 2015..currentYear, ascending, one per year |
| Ranking.ClubNamesAreNamed | backend/server.js:133-147 | the accumulator's keys are exactly the club names in the folded rows |
| Ranking.SumForSeasonRows | backend/server.js:123-156 | a club's totals over all folded rows equal the sum, season by season, of its rows in each fetched TOTAL table |
| Ranking.FailedSeasonAddsNothing | backend/server.js:157-161 | a failed season leaves rows and ranking as if it had not been requested |
| Ranking.Derive | backend/server.js:165-169 | `saldo = golsPro - golsContra`; everything else is carried over |
| Ranking.RankingOf | backend/server.js:164-172 | one entry per club name in the folded rows |
| Ranking.RankingOrderedByPoints | backend/server.js:171-172 | the ranking is non-increasing in `pontos` |
| Ranking.RankingEntriesAreTotals | backend/server.js:133-169 | each entry's club occurs in the rows; its counters are the sums of its rows; its crest is that of its first row; its `saldo` is derived |
| Ranking.RankingNamesDistinct | backend/server.js:135-147 | no club name appears twice |
| Ranking.RankingCoversClubs | backend/server.js:133-165 | a name has an entry if and only if some folded row carries it |
| Ranking.Accumulator.constructor | backend/server.js:119 | the accumulator starts empty |
| Ranking.Accumulator.FoldRow | backend/server.js:133-156 | after a row, the accumulator holds, per name, the first crest and the sums of all rows folded so far |
| Ranking.Accumulator.FoldTable | backend/server.js:131-156 | folding a table folds its rows in order |
| Ranking.Accumulator.Ranking | backend/server.js:164-172 | the derived, sorted entries equal the ranking of the rows folded |
| Ranking.BuildRanking | backend/server.js:119-172 | the loop requests every season of the list in order and answers the ranking of every fetched season's TOTAL rows, skipping failures |
| Ranking.IsFresh | backend/server.js:110-113 | the file is reused if and only if it is less than 86 400 000 ms old |
| Ranking.HandleRanking | backend/server.js:106-178 | a fresh cache file is answered as is, with no request; otherwise every season 2015..current year is requested, and the ranking is rebuilt, written and answered |
| TeamStats.FormOf | frontend/src/pages/Team.jsx:49-51 | W, E, L correspond one to one to win, draw, loss |
| TeamStats.CountsAddUp | frontend/src/pages/Team.jsx:25-41 | wins + draws + losses = matches counted, and points = 3·wins + draws |
| TeamStats.LastFive | frontend/src/pages/Team.jsx:44 | `slice(-5)`: the last min(5, n) elements in order |
| TeamStats.Ultimos | frontend/src/pages/Team.jsx:44-52 | min(5, played) letters, each the result of the matching one of the last five played matches |
| TeamStats.CalcularEstatisticas | frontend/src/pages/Team.jsx:15-55 | counts results over the matches with both scores only; wins + draws + losses = that count; points = 3·wins + draws; `ultimos` as above |
| TeamStats.Tally | frontend/src/pages/Team.jsx:105-116 | the counters of one side: its games are its wins, draws and losses |
| TeamStats.TallyCounts | frontend/src/pages/Team.jsx:105-116 | home games + away games = finished matches; each side's games = V + E + D |
| TeamStats.ScorelessFinishedMatch | frontend/src/pages/Team.jsx:110-115 | a finished match with `null` scores adds a game and a draw and no goals |
| TeamStats.MandanteVsVisitante | frontend/src/pages/Team.jsx:99-120 | the loop yields the home and away tallies of finished matches, with the two counting facts above |
| TeamStats.Series | frontend/src/pages/Team.jsx:122-136 | one entry per played match |
| TeamStats.PointsOfStep | frontend/src/pages/Team.jsx:131-133 | each match adds its result's points to the running total |
| TeamStats.SeriesSteps | frontend/src/pages/Team.jsx:131-133 | each step of the series adds 0, 1 or 3 |
| TeamStats.SeriesMonotone | frontend/src/pages/Team.jsx:126-134 | the series never decreases |
| TeamStats.PontosAcumulados | frontend/src/pages/Team.jsx:122-136 | the running-points loop yields, after match i, the points of the first i+1 played matches |
| TeamStats.SeriesEndsAtTotal | frontend/src/pages/Team.jsx:122-134 | the last point of the series is 3·wins + draws of the statistics |
| TeamStats.ResultLabel | frontend/src/pages/Team.jsx:146-151 | the label is "Empate" exactly for a draw and "Derrota" exactly for a loss, and never empty, so the three results get three labels |
| TeamStats.HighlightOf | frontend/src/pages/Team.jsx:141-154 | the match id; the other side's short name, whichever side the team plays; the draw and loss labels exactly for a draw and a loss; the score as `home x away` with `null` as 0 |
| TeamStats.PlacarSeparates | frontend/src/pages/Team.jsx:154 | two highlights show the same score text if and only if both scores, `null` read as 0, are equal |
| TeamStats.Reverse | frontend/src/pages/Team.jsx:157 | same length, elements in reverse order |
| TeamStats.DestaquesRecentes | frontend/src/pages/Team.jsx:138-158 | min(5, finished) highlights, the i-th from the i-th most recent finished match |
| TeamStats.HighlightsAreFinishedMatches | frontend/src/pages/Team.jsx:139-141 | every highlight comes from a finished match of the input |
| MatchesPage.FilteredIsOrderedSelection | frontend/src/pages/Matches.jsx:67-78 | the filtered list is an ordered subsequence; every kept match passes the round, status and team tests |
| MatchesPage.NoFiltersKeepAll | frontend/src/pages/Matches.jsx:68-76 | with all three filters on "all", the list is unchanged |
| MatchesPage.FilterMatches | frontend/src/pages/Matches.jsx:67-78 | a match is kept if and only if it is loaded and passes the round, status and team tests |
| MatchesPage.TeamFilterKeepsItsMatches | frontend/src/pages/Matches.jsx:71-74 | choosing team `id` keeps a match if and only if the team is its home or away side |
| MatchesPage.RoundFilterKeepsItsMatches | frontend/src/pages/Matches.jsx:69 | choosing round `n` keeps a match if and only if its matchday is `n` |
| MatchesPage.HandleFilterChange | frontend/src/pages/Matches.jsx:80-82 | sets the chosen filter; the other two keep their values |
| MatchesPage.FilterChangesCompose | frontend/src/pages/Matches.jsx:80-82 | a second change of a key overrides the first; a change is a no-op if and only if the value is the current one |
| MatchesPage.SideIdsPlays | frontend/src/pages/Matches.jsx:42-45 | an id is written to the map if and only if its team plays some match |
| MatchesPage.LastName | frontend/src/pages/Matches.jsx:42-45 | an id has a written name if and only if it is written to the map |
| MatchesPage.TeamOptions | frontend/src/pages/Matches.jsx:40-49 | the map-filling loop and the sort yield the team options |
| MatchesPage.TeamsOf | frontend/src/pages/Matches.jsx:40-48 | one option per distinct team id |
| MatchesPage.TeamsOfNames | frontend/src/pages/Matches.jsx:41-47 | each option carries the last short name written for its id |
| MatchesPage.TeamsOfDistinctIds | frontend/src/pages/Matches.jsx:41-47 | no id appears twice |
| MatchesPage.TeamsOfSorted | frontend/src/pages/Matches.jsx:48 | the options are ordered by name under the given ordering |
| MatchesPage.TeamsOfCoversPlayers | frontend/src/pages/Matches.jsx:42-47 | a team has an option if and only if it plays some match |
| MatchesPage.Matchdays | frontend/src/pages/Matches.jsx:52 | no zero is kept, and the list is no longer than the matches |
| MatchesPage.MatchdaysMembers | frontend/src/pages/Matches.jsx:52 | the kept matchdays are exactly the non-null, non-zero ones |
| MatchesPage.RoundsProperties | frontend/src/pages/Matches.jsx:51-54 | the rounds are strictly ascending; a round appears if and only if some match has that non-zero matchday |
| MatchesPage.Rounds | frontend/src/pages/Matches.jsx:51-54 | the rounds are exactly the kept matchdays, once each, no more than the matches |
| LivePage.ScoreText | frontend/src/pages/Live.jsx:51 | the score text is never empty |
| LivePage.ScoreTextSeparates | frontend/src/pages/Live.jsx:51-53 | two score texts are equal if and only if both scores, `null` read as 0, are |
| LivePage.ReplaceFirstDash | frontend/src/pages/Live.jsx:55 | a text without a dash is unchanged |
| LivePage.ReplaceDashAfterDigits | frontend/src/pages/Live.jsx:55 | after a run of digits, the first dash becomes " x " |
| LivePage.GoalText | frontend/src/pages/Live.jsx:55 | the announced text is `home x away` |
| LivePage.Fires | frontend/src/pages/Live.jsx:52-53 | fires only for a remembered score that differs from the current one; an empty remembered score never fires |
| LivePage.AfterMessage | frontend/src/pages/Live.jsx:49-58 | every id in the payload has a remembered score afterwards |
| LivePage.Notified | frontend/src/pages/Live.jsx:53-56 | the notified positions lie within the payload |
| LivePage.NotifiedAt | frontend/src/pages/Live.jsx:52-56 | a match announces if and only if the scores remembered just before it fire |
| LivePage.AbsentUnchanged | frontend/src/pages/Live.jsx:49-58 | ids absent from the payload keep their entry, or its absence |
| LivePage.LastWriteWins | frontend/src/pages/Live.jsx:57 | after the payload, an id holds the score of its last match in it |
| LivePage.FirstSightingSilent | frontend/src/pages/Live.jsx:52-53 | the first sighting of an id never announces |
| LivePage.NotifiedIff | frontend/src/pages/Live.jsx:53-56 | with distinct ids, a match announces if and only if a non-empty remembered score differs from its current one |
| LivePage.GoalIffScoreChanged | frontend/src/pages/Live.jsx:51-56 | against a score remembered from an earlier sighting, an announcement happens if and only if the goals changed |
| LivePage.LiveFeed.constructor | frontend/src/pages/Live.jsx:82 | mounting opens one connection, with no timer pending and no scores remembered |
| LivePage.LiveFeed.Connect | frontend/src/pages/Live.jsx:37-41 | clears the error and opens one more event source |
| LivePage.LiveFeed.OnMessage | frontend/src/pages/Live.jsx:42-65 | the new scores and the announcing positions are the specification's; an unparsable event changes neither; the timer state is untouched |
| LivePage.LiveFeed.OnError | frontend/src/pages/Live.jsx:67-79 | closes and sets the error; a timer is scheduled only if none is pending, so exactly one is pending afterwards |
| LivePage.LiveFeed.OnRetryTimer | frontend/src/pages/Live.jsx:74-77 | the guard is cleared, no timer is pending, one more connection is opened |
| LivePage.LiveFeed.Unmount | frontend/src/pages/Live.jsx:84-90 | closes, and cancels a pending timer |
| LivePage.RepeatedErrorsScheduleOnce | frontend/src/pages/Live.jsx:67-79 | two errors in a row leave one timer pending; when it fires, a second connection opens and no timer is left |
| ApiService.StripTrailingSlash | frontend/src/services/api.js:3 | one trailing `/` is removed if present; otherwise the text is unchanged |
| ApiService.StripRemovesOneSlash | frontend/src/services/api.js:3 | stripping `r + "/"` gives `r` |
| ApiService.BaseUrl | frontend/src/services/api.js:3 | never empty; the default when unset or when the value strips to ""; otherwise the stripped value |
| ApiService.BaseUrlHasNoTrailingSlash | frontend/src/services/api.js:3 | the base ends in no slash unless its value ended in two |
| ApiService.GetApiUrl | frontend/src/services/api.js:20-23 | an empty path gives the base; any other path gives the base, then a `/`, then the path minus a leading `/` it may have |
| ApiService.LeadingSlashOptional | frontend/src/services/api.js:22 | `p` and `"/" + p` give the same URL |
| ApiService.SingleSlashAtJoint | frontend/src/services/api.js:20-23 | with a base from the environment, exactly one slash joins base and path |
| ApiService.ServerMessage | frontend/src/services/api.js:13-14 | a message is present if and only if the response body carries a non-empty `error`, and it is exactly that text |
| ApiService.OnRejected | frontend/src/services/api.js:12-17 | the error is always rejected again; `userMessage` takes the server's message if and only if there is one |
| ApiService.ShownAfterInterception | frontend/src/services/api.js:13-16 | a page shows the server's message when present, else its own text |
| HomePage.OnlyLiveKeepsExactly | frontend/src/pages/Home.jsx:47-51 | a missing list is empty; the strip is an ordered subsequence keeping each in-play or paused match as often as it occurs, and nothing else |
| HomePage.OnlyLive | frontend/src/pages/Home.jsx:48-50 | a missing list gives none; a match is shown if and only if it is in the list and in play or paused |
| HomePage.SeasonOptions | frontend/src/pages/Home.jsx:68-71 | eleven seasons |
| HomePage.SeasonOptionsDescend | frontend/src/pages/Home.jsx:68-71 | from 2025 down to 2015, strictly descending, exactly the years 2015..2025, the reverse of the ranking's seasons for 2025 |
| HomePage.TableState | frontend/src/pages/Home.jsx:23-36 | on success, the table or an empty one, and no error text; on failure, an empty table and a non-empty error text that is the server's message when there is one |
| HomePage.NextRefreshToken | frontend/src/pages/Home.jsx:129 | the token grows on each retry |

## Left out

- Network and file I/O are inputs, not modelled:
  - the upstream requests: a route receives an `Upstream` value, and the ranking receives one optional season response per year;
  - the cache file: its mtime and contents are inputs; writing it is the `written` field;
  - the local history file, read as a map;
  - the event stream, the `Notification` API and the audio.
- `Date.now()` and `new Date()` are parameters, in milliseconds and years.
- Server.HandleStandings, Server.HandleMatches, Server.HandleLive and Server.HandleSeasonStandings: each models one request on its own. Other requests may run while a route awaits upstream, and one of them may store under the same key in between. The code then keeps whichever store comes last; the model does not capture that interleaving.
- The 10-second wait after a failed season (`backend/server.js:160`) is not modelled: it only delays the loop.
- Express wiring, CORS, `app.listen` and React state, effects and rendering are not modelled.
- Floating-point results are not modelled: `aproveitamento`, the averages, `toFixed` and the sparkline.
- `localeCompare` is a given ordering of names, required to be a total preorder where that matters.
- The date sort before `pontosAcumulados` is not modelled: the method takes the matches already in date order.
- `Array.prototype.sort` is a stable insertion sort on sequences, not an in-place sort on an array.
- Numerals.NumberOf: does not model `Number` on whitespace, signs, decimals or exponents. Those texts read as NaN here; the pages only pass option values and "all".
- Ranking.Accumulator.Ranking: entries are listed in order of first appearance before the sort. `Object.values` lists integer-like keys first, in numeric order, so for such club names the order of clubs tied on points may differ from the code's.
- Ranking.HandleRanking: a fresh cache file is taken to hold a ranking. In the code, a fresh but corrupt file makes `JSON.parse` throw outside any `try`, and the request fails.
- Ranking.Accumulator.FoldRow: a club whose name is an `Object.prototype` property, such as `constructor`, is not modelled as the object would treat it.
- Server.HandleMatches: the response holds only the match list. The other upstream fields pass through unchanged in the code. A response whose `matches` field is missing makes the code answer 500 only with `live=true`, where the filter throws; otherwise the code answers and caches the upstream data unchanged. The model has no such response.
- Server.UpperAscii: only ASCII letters are raised; `toUpperCase` also raises other letters. No other character upper-cases to the letters of `TOTAL`, `HOME` or `AWAY`, so the table lookup decides the same.
- Server.SeasonStandingsKeySeparates: holds only for seasons without a dash. Route parameters may contain one, and then two requests share a key (Server.SeasonStandingsKeyCollides); seasons are years in practice.
- Server.HandleSeasonStandings: the local lookup is `season in history`. The code tests `historico[season]` for truthiness on a plain object, so a season named after an inherited property such as `constructor` or `toString` is answered from the object, and cached for an hour, instead of being requested upstream. Seasons that are years behave the same in both.
- Server.HandleSeasonStandings: a missing or unreadable history file is not modelled. In the code it throws before the `try`.
- TeamStats.DestaquesRecentes: the localized date of a highlight is not modelled.
- LivePage.LiveFeed.OnMessage: only the unparsable case is modelled; a payload that parses but has a match without a score would throw mid-loop.
- The live page connects to `/api/matches/stream` (`frontend/src/pages/Live.jsx:35`). `backend/server.js` defines no such route, so in practice only the error and reconnection path is ever taken. The model treats the stream as an input.
- The ranking cache's staleness is judged from the cache file's mtime; the fixed 10 s wait after a failed season (server.js:160) is a timer and is not modelled.
- TtlCache.Cache.Get: an entry is served up to and including its expiry millisecond; only `now > expires` evicts it.
- Integer widths are not a concern: JavaScript numbers hold every count here exactly, so counters are unbounded integers.

## Findings

| source | as written | input that shows it | evidently intended | confidence | as-written member | corrected member |
|---|---|---|---|---|---|---|
| backend/server.js:57 | `matches-${matchday \|\| (live ? "live" : "all")}` ignores `live` when a matchday is given, and treats any non-empty `live`, including `live=false`, as live | `?matchday=5&live=true` and `?matchday=5` share the key `matches-5`, yet only the first filters to in-play matches. `?live=false` and `?live=true` share `matches-live`, yet only the second filters. Whichever is cached first is served to the other. | the key names both the filter (`live === "true"`) and the forwarded matchday, so distinct request shapes never share a key (Server.MatchesKeyFixedSeparates); the route keyed so (Server.HandleMatchesFixed) answers each request its own payload | high (not executed) | Server.StaleFilteredAnswer | Server.FixedKeyAnswersEachRequest |
