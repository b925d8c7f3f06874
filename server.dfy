/** The backend's query layer: cache keys built from the request, the in-play filter, and the four
    cached routes (`/api/standings`, `/api/matches`, `/api/live`, `/api/standings/:season/:type`).
    The upstream response is an input; the cache is the shared `TtlCache.Cache`. */
module Server {
  import opened Wrappers
  import opened Football
  import opened Sequences
  import TtlCache

  /** What a route stores in the cache and sends back. */
  datatype Payload =
    | MatchList(matches: seq<Match>)
    | StandingsData(standings: seq<Standing>)
    | SeasonTable(season: string, kind: string, table: seq<Row>)

  datatype Response = Ok(payload: Payload) | Fail(status: int, message: string)

  /** The outcome of the one upstream request a route makes on a cache miss: the response data, or
      the HTTP status of a failed request (`None` when no response arrived). */
  datatype Upstream<T> = Fetched(data: T) | Failed(status: Option<int>)

  const StandingsKey: string := "standings"
  const LiveKey: string := "live-matches"

  const StandingsTtl: int := 120
  const MatchesTtl: int := 120
  const LiveTtl: int := 30
  const LocalSeasonTtl: int := 3600
  const RemoteSeasonTtl: int := 300

  const RateLimited: int := 429
  const ServerError: int := 500

  /** A query-string value is truthy when it is present and not empty. */
  predicate Truthy(p: Option<string>)
  {
    p.Some? && p.value != ""
  }

  /** The matchday sent upstream (`matchday ? { matchday } : {}`). */
  function Forwarded(matchday: Option<string>): Option<string>
  {
    if Truthy(matchday) then matchday else None
  }

  /** Only `live=true` makes the route keep in-play matches alone. */
  predicate FiltersLive(live: Option<string>)
  {
    live == Some("true")
  }

  /** `matches-${matchday || (live ? "live" : "all")}`, as written. */
  function MatchesKey(matchday: Option<string>, live: Option<string>): (k: string)
    ensures Truthy(matchday) ==> k == "matches-" + matchday.value
    ensures !Truthy(matchday) ==> k == if Truthy(live) then "matches-live" else "matches-all"
  {
    "matches-" + (if Truthy(matchday) then matchday.value else if Truthy(live) then "live" else "all")
  }

  /** The key as written serves one payload for requests whose payloads differ: a matchday with
      `live=true` (in-play matches only) and the same matchday without it (all its matches); and
      `live=false` (all matches) and `live=true` (in-play only). */
  lemma MatchesKeyCollides()
    ensures MatchesKey(Some("5"), Some("true")) == MatchesKey(Some("5"), None)
    ensures FiltersLive(Some("true")) && !FiltersLive(None)
    ensures MatchesKey(None, Some("false")) == MatchesKey(None, Some("true"))
    ensures !FiltersLive(Some("false"))
  {
  }

  /** The key suffix that carries the forwarded matchday. */
  function MatchdaySuffix(matchday: Option<string>): string
  {
    if Truthy(matchday) then "-" + matchday.value else ""
  }

  /** The corrected key: it names both things the payload depends on, the in-play filter and the
      forwarded matchday. */
  function MatchesKeyFixed(matchday: Option<string>, live: Option<string>): (k: string)
    ensures |k| >= 11 && k[..8] == "matches-"
  {
    "matches-" + (if FiltersLive(live) then "live" else "all") + MatchdaySuffix(matchday)
  }

  lemma MatchdaySuffixInjective(a: Option<string>, b: Option<string>)
    requires MatchdaySuffix(a) == MatchdaySuffix(b)
    ensures Forwarded(a) == Forwarded(b)
  {
    if Truthy(a) && Truthy(b) {
      assert a.value == MatchdaySuffix(a)[1..];
      assert b.value == MatchdaySuffix(b)[1..];
    }
  }

  /** Two requests share a corrected key exactly when they ask upstream for the same matchday and
      apply the same filter, so a cached payload is only ever served for its own request shape. */
  lemma MatchesKeyFixedSeparates(md1: Option<string>, live1: Option<string>, md2: Option<string>, live2: Option<string>)
    ensures MatchesKeyFixed(md1, live1) == MatchesKeyFixed(md2, live2)
            <==> FiltersLive(live1) == FiltersLive(live2) && Forwarded(md1) == Forwarded(md2)
  {
    var k1, k2 := MatchesKeyFixed(md1, live1), MatchesKeyFixed(md2, live2);
    if k1 == k2 {
      assert k1[8] == (if FiltersLive(live1) then 'l' else 'a');
      assert k2[8] == (if FiltersLive(live2) then 'l' else 'a');
      var n := if FiltersLive(live1) then 12 else 11;
      assert k1[n..] == MatchdaySuffix(md1);
      assert k2[n..] == MatchdaySuffix(md2);
      MatchdaySuffixInjective(md1, md2);
    }
  }

  /** `standings-${season}-${type}`: the season and the type can be read back from the key once the
      length of the season is known. */
  function SeasonStandingsKey(season: string, kind: string): (k: string)
    ensures |k| == 11 + |season| + |kind|
    ensures k[..10] == "standings-" && k[10..10 + |season|] == season
    ensures k[10 + |season|] == '-' && k[11 + |season|..] == kind
  {
    "standings-" + season + "-" + kind
  }

  /** With a dash-free longer season, two season keys differ where the shorter season ends. */
  lemma SeasonKeysDifferAt(s1: string, t1: string, s2: string, t2: string)
    requires '-' !in s2 && |s1| < |s2|
    ensures SeasonStandingsKey(s1, t1) != SeasonStandingsKey(s2, t2)
  {
    var k1, k2 := SeasonStandingsKey(s1, t1), SeasonStandingsKey(s2, t2);
    assert k1[10 + |s1|] == '-';
    assert k2[10 + |s1|] == s2[|s1|];
  }

  /** Route parameters may contain a dash, and then two different requests share a key: season
      `2020-2021` of type `TOTAL` and season `2020` of type `2021-TOTAL`. */
  lemma SeasonStandingsKeyCollides()
    ensures SeasonStandingsKey("2020-2021", "TOTAL") == SeasonStandingsKey("2020", "2021-TOTAL")
    ensures "2020-2021" != "2020" && "TOTAL" != "2021-TOTAL"
  {
  }

  /** Season keys do not collide as long as the season contains no dash (years never do). */
  lemma SeasonStandingsKeySeparates(s1: string, t1: string, s2: string, t2: string)
    requires '-' !in s1 && '-' !in s2
    ensures SeasonStandingsKey(s1, t1) == SeasonStandingsKey(s2, t2) <==> s1 == s2 && t1 == t2
  {
    var k1, k2 := SeasonStandingsKey(s1, t1), SeasonStandingsKey(s2, t2);
    if k1 == k2 {
      if |s1| < |s2| {
        SeasonKeysDifferAt(s1, t1, s2, t2);
        assert false;
      } else if |s2| < |s1| {
        SeasonKeysDifferAt(s2, t2, s1, t1);
        assert false;
      }
      assert s1 == k1[10..10 + |s1|];
      assert s2 == k2[10..10 + |s2|];
      assert t1 == k1[11 + |s1|..];
      assert t2 == k2[11 + |s2|..];
    }
  }

  predicate IsInPlay(m: Match)
  {
    m.status == InPlay
  }

  /** `matches.filter(m => m.status === "IN_PLAY")`. */
  function LiveOnly(ms: seq<Match>): (r: seq<Match>)
    ensures forall m :: m in r <==> m in ms && m.status == InPlay
  {
    Filter(ms, IsInPlay)
  }

  /** The live filter keeps exactly the in-play matches, each as often as it occurs, in their
      original order. */
  lemma LiveOnlyKeepsExactlyInPlay(ms: seq<Match>)
    ensures Subsequence(LiveOnly(ms), ms)
    ensures forall m :: m in LiveOnly(ms) ==> m.status == InPlay
    ensures forall m :: multiset(LiveOnly(ms))[m] == if m.status == InPlay then multiset(ms)[m] else 0
  {
    FilterIsSubsequence(ms, IsInPlay);
    forall m
      ensures multiset(LiveOnly(ms))[m] == if m.status == InPlay then multiset(ms)[m] else 0
    {
      FilterCounts(ms, IsInPlay, m);
    }
  }

  /** The error status a route reports for a failed upstream request: 429 passes through. */
  function ErrorStatus(status: Option<int>): (code: int)
    ensures code == RateLimited <==> status == Some(RateLimited)
    ensures code == RateLimited || code == ServerError
  {
    if status == Some(RateLimited) then RateLimited else ServerError
  }

  /** `GET /api/standings`. The cache is read at `now`, when the request arrives, and written at
      `stored`, when the upstream answer has come back (`setCache` reads the clock again). */
  method HandleStandings(cache: TtlCache.Cache<Payload>, upstream: Upstream<seq<Standing>>, now: int, stored: int)
    returns (resp: Response)
    requires now <= stored
    modifies cache
    ensures var hit := TtlCache.Read(old(cache.entries), StandingsKey, now);
      var kept := TtlCache.AfterRead(old(cache.entries), StandingsKey, now);
      if hit.Some? then resp == Ok(hit.value) && cache.entries == kept
      else if upstream.Fetched? then
        && resp == Ok(StandingsData(upstream.data))
        && cache.entries == TtlCache.Store(kept, StandingsKey, resp.payload, StandingsTtl, stored)
      else
        && resp == Fail(ErrorStatus(upstream.status),
                        if upstream.status == Some(RateLimited)
                        then "Limite de requisições atingido. Tente novamente em 1 minuto."
                        else "Erro ao buscar classificação")
        && cache.entries == kept
  {
    var cached := cache.Get(StandingsKey, now);
    if cached.Some? {
      return Ok(cached.value);
    }
    match upstream
    case Fetched(data) =>
      cache.Set(StandingsKey, StandingsData(data), stored, StandingsTtl);
      resp := Ok(StandingsData(data));
    case Failed(status) =>
      if status == Some(RateLimited) {
        resp := Fail(RateLimited, "Limite de requisições atingido. Tente novamente em 1 minuto.");
      } else {
        resp := Fail(ServerError, "Erro ao buscar classificação");
      }
  }

  /** What `/api/matches` sends and caches for an upstream list: only `live=true` filters. */
  function MatchesPayload(live: Option<string>, data: seq<Match>): (p: Payload)
    ensures p.MatchList? && |p.matches| <= |data|
    ensures !FiltersLive(live) ==> p.matches == data
    ensures FiltersLive(live) ==> forall m :: m in p.matches <==> m in data && m.status == InPlay
  {
    MatchList(if FiltersLive(live) then LiveOnly(data) else data)
  }

  /** How long `/api/matches` caches, in seconds: 30 for any non-empty `live`, 120 otherwise. */
  function MatchesTtlFor(live: Option<string>): (ttl: int)
    ensures ttl == LiveTtl <==> Truthy(live)
    ensures ttl == LiveTtl || ttl == MatchesTtl
  {
    if Truthy(live) then LiveTtl else MatchesTtl
  }

  /** What `/api/matches` answers when the upstream request fails. */
  function MatchesFailure(status: Option<int>): (r: Response)
    ensures r.Fail? && r.status == ErrorStatus(status)
  {
    if status == Some(RateLimited) then Fail(RateLimited, "Limite de requisições atingido. Aguarde 1 minuto.")
    else Fail(ServerError, "Erro ao buscar partidas")
  }

  /** The body of `/api/matches` once its cache key is chosen: a hit answers the cached payload; a
      miss answers and caches the upstream list, filtered when `live=true`; a failure answers 429 or
      500 with its message and caches nothing. */
  method ServeMatches(cache: TtlCache.Cache<Payload>, key: string, live: Option<string>,
                      upstream: Upstream<seq<Match>>, now: int, stored: int)
    returns (resp: Response)
    requires now <= stored
    modifies cache
    ensures var hit := TtlCache.Read(old(cache.entries), key, now);
      var kept := TtlCache.AfterRead(old(cache.entries), key, now);
      if hit.Some? then resp == Ok(hit.value) && cache.entries == kept
      else if upstream.Fetched? then
        && resp == Ok(MatchesPayload(live, upstream.data))
        && cache.entries == TtlCache.Store(kept, key, resp.payload, MatchesTtlFor(live), stored)
      else resp == MatchesFailure(upstream.status) && cache.entries == kept
  {
    var cached := cache.Get(key, now);
    if cached.Some? {
      return Ok(cached.value);
    }
    match upstream
    case Fetched(data) =>
      var matches := data;
      if FiltersLive(live) {
        matches := LiveOnly(matches);
      }
      cache.Set(key, MatchList(matches), stored, if Truthy(live) then LiveTtl else MatchesTtl);
      resp := Ok(MatchList(matches));
    case Failed(status) =>
      if status == Some(RateLimited) {
        resp := Fail(RateLimited, "Limite de requisições atingido. Aguarde 1 minuto.");
      } else {
        resp := Fail(ServerError, "Erro ao buscar partidas");
      }
  }

  /** `GET /api/matches?matchday=&live=` as written, keyed by `MatchesKey`. */
  method HandleMatches(cache: TtlCache.Cache<Payload>, matchday: Option<string>, live: Option<string>,
                       upstream: Upstream<seq<Match>>, now: int, stored: int)
    returns (resp: Response)
    requires now <= stored
    modifies cache
    ensures var key := MatchesKey(matchday, live);
      var hit := TtlCache.Read(old(cache.entries), key, now);
      var kept := TtlCache.AfterRead(old(cache.entries), key, now);
      if hit.Some? then resp == Ok(hit.value) && cache.entries == kept
      else if upstream.Fetched? then
        && resp == Ok(MatchesPayload(live, upstream.data))
        && cache.entries == TtlCache.Store(kept, key, resp.payload, MatchesTtlFor(live), stored)
      else resp == MatchesFailure(upstream.status) && cache.entries == kept
  {
    resp := ServeMatches(cache, MatchesKey(matchday, live), live, upstream, now, stored);
  }

  /** The same route keyed by the corrected `MatchesKeyFixed`. */
  method HandleMatchesFixed(cache: TtlCache.Cache<Payload>, matchday: Option<string>, live: Option<string>,
                            upstream: Upstream<seq<Match>>, now: int, stored: int)
    returns (resp: Response)
    requires now <= stored
    modifies cache
    ensures var key := MatchesKeyFixed(matchday, live);
      var hit := TtlCache.Read(old(cache.entries), key, now);
      var kept := TtlCache.AfterRead(old(cache.entries), key, now);
      if hit.Some? then resp == Ok(hit.value) && cache.entries == kept
      else if upstream.Fetched? then
        && resp == Ok(MatchesPayload(live, upstream.data))
        && cache.entries == TtlCache.Store(kept, key, resp.payload, MatchesTtlFor(live), stored)
      else resp == MatchesFailure(upstream.status) && cache.entries == kept
  {
    resp := ServeMatches(cache, MatchesKeyFixed(matchday, live), live, upstream, now, stored);
  }

  /** As written, a plain request for matchday 5 one second after a `live=true` request for it is
      answered from the cache with the in-play matches only, although the list has others. */
  method StaleFilteredAnswer(ms: seq<Match>, other: Match, t: int) returns (first: Response, second: Response)
    requires other in ms && other.status != InPlay
    ensures first == Ok(MatchList(LiveOnly(ms)))
    ensures second == first && second != Ok(MatchList(ms))
  {
    var cache := new TtlCache.Cache<Payload>();
    first := HandleMatches(cache, Some("5"), Some("true"), Fetched(ms), t, t);
    assert MatchesKey(Some("5"), None) == MatchesKey(Some("5"), Some("true"));
    second := HandleMatches(cache, Some("5"), None, Fetched(ms), t + 1000, t + 1000);
    assert other !in LiveOnly(ms);
  }

  /** Under the corrected key the same two requests each get their own payload. */
  method FixedKeyAnswersEachRequest(ms: seq<Match>, t: int) returns (first: Response, second: Response)
    ensures first == Ok(MatchList(LiveOnly(ms)))
    ensures second == Ok(MatchList(ms))
  {
    var cache := new TtlCache.Cache<Payload>();
    first := HandleMatchesFixed(cache, Some("5"), Some("true"), Fetched(ms), t, t);
    MatchesKeyFixedSeparates(Some("5"), None, Some("5"), Some("true"));
    second := HandleMatchesFixed(cache, Some("5"), None, Fetched(ms), t + 1000, t + 1000);
  }

  /** `GET /api/live`: in-play matches only, cached for 30 seconds; every failure is a 500. */
  method HandleLive(cache: TtlCache.Cache<Payload>, upstream: Upstream<seq<Match>>, now: int, stored: int)
    returns (resp: Response)
    requires now <= stored
    modifies cache
    ensures var hit := TtlCache.Read(old(cache.entries), LiveKey, now);
      var kept := TtlCache.AfterRead(old(cache.entries), LiveKey, now);
      if hit.Some? then resp == Ok(hit.value) && cache.entries == kept
      else if upstream.Fetched? then
        && resp == Ok(MatchList(LiveOnly(upstream.data)))
        && cache.entries == TtlCache.Store(kept, LiveKey, resp.payload, LiveTtl, stored)
      else resp == Fail(ServerError, "Erro ao buscar partidas ao vivo") && cache.entries == kept
  {
    var cached := cache.Get(LiveKey, now);
    if cached.Some? {
      return Ok(cached.value);
    }
    match upstream
    case Fetched(data) =>
      var live := LiveOnly(data);
      cache.Set(LiveKey, MatchList(live), stored, LiveTtl);
      resp := Ok(MatchList(live));
    case Failed(_) =>
      resp := Fail(ServerError, "Erro ao buscar partidas ao vivo");
  }

  /** `type.toUpperCase()` on ASCII letters. */
  function UpperAscii(s: string): (r: string)
    ensures |r| == |s|
    ensures forall i :: 0 <= i < |r| ==> !('a' <= r[i] <= 'z')
    ensures forall i :: 0 <= i < |s| && !('a' <= s[i] <= 'z') ==> r[i] == s[i]
    ensures forall i :: 0 <= i < |s| && 'a' <= s[i] <= 'z' ==> r[i] as int == s[i] as int - 32
  {
    seq(|s|, i requires 0 <= i < |s| => if 'a' <= s[i] <= 'z' then (s[i] as int - 32) as char else s[i])
  }

  /** An ASCII capital letter lowered; every other character unchanged. */
  function LowerAscii(c: char): char
  {
    if 'A' <= c <= 'Z' then (c as int + 32) as char else c
  }

  /** `t` and `k` are equal when ASCII case is ignored. */
  predicate SameIgnoringCase(t: string, k: string)
  {
    |t| == |k| && forall i :: 0 <= i < |t| ==> LowerAscii(t[i]) == LowerAscii(k[i])
  }

  /** A type parameter upper-cases to a name written in capitals exactly when it spells that name in
      any mixture of cases. */
  lemma UpperAsciiMatchesIgnoringCase(t: string, k: string)
    requires forall i :: 0 <= i < |k| ==> 'A' <= k[i] <= 'Z'
    ensures UpperAscii(t) == k <==> SameIgnoringCase(t, k)
  {
    var r := UpperAscii(t);
    if |t| == |k| {
      forall i | 0 <= i < |t|
        ensures r[i] == k[i] <==> LowerAscii(t[i]) == LowerAscii(k[i])
      {
      }
      if SameIgnoringCase(t, k) {
        assert forall i :: 0 <= i < |t| ==> r[i] == k[i];
      }
    }
  }

  /** The three table types the lookup compares against are found from any casing of their names. */
  lemma StandingTypesIgnoreCase(t: string)
    ensures UpperAscii(t) == "TOTAL" <==> SameIgnoringCase(t, "TOTAL")
    ensures UpperAscii(t) == "HOME" <==> SameIgnoringCase(t, "HOME")
    ensures UpperAscii(t) == "AWAY" <==> SameIgnoringCase(t, "AWAY")
  {
    UpperAsciiMatchesIgnoringCase(t, "TOTAL");
    UpperAsciiMatchesIgnoringCase(t, "HOME");
    UpperAsciiMatchesIgnoringCase(t, "AWAY");
  }

  /** `GET /api/standings/:season/:type`: a season found in the local history file is served from it
      and cached for an hour; otherwise the upstream table of that type is served, cached for five
      minutes only when it is not empty; an upstream failure answers an empty table, uncached. */
  method HandleSeasonStandings(cache: TtlCache.Cache<Payload>, season: string, kind: string,
                               history: map<string, seq<Row>>, upstream: Upstream<seq<Standing>>, now: int, stored: int)
    returns (resp: Response)
    requires now <= stored
    modifies cache
    ensures var key := SeasonStandingsKey(season, kind);
      var hit := TtlCache.Read(old(cache.entries), key, now);
      var kept := TtlCache.AfterRead(old(cache.entries), key, now);
      if hit.Some? then resp == Ok(hit.value) && cache.entries == kept
      else if season in history then
        && resp == Ok(SeasonTable(season, kind, history[season]))
        && cache.entries == TtlCache.Store(kept, key, resp.payload, LocalSeasonTtl, stored)
      else if upstream.Fetched? && FindTable(upstream.data, UpperAscii(kind)) != [] then
        && resp == Ok(SeasonTable(season, kind, FindTable(upstream.data, UpperAscii(kind))))
        && cache.entries == TtlCache.Store(kept, key, resp.payload, RemoteSeasonTtl, stored)
      else resp == Ok(SeasonTable(season, kind, [])) && cache.entries == kept
  {
    var key := SeasonStandingsKey(season, kind);
    var cached := cache.Get(key, now);
    if cached.Some? {
      return Ok(cached.value);
    }
    if season in history {
      var table := history[season];
      cache.Set(key, SeasonTable(season, kind, table), stored, LocalSeasonTtl);
      return Ok(SeasonTable(season, kind, table));
    }
    match upstream
    case Fetched(standings) =>
      var table := FindTable(standings, UpperAscii(kind));
      if |table| == 0 {
        return Ok(SeasonTable(season, kind, []));
      }
      cache.Set(key, SeasonTable(season, kind, table), stored, RemoteSeasonTtl);
      resp := Ok(SeasonTable(season, kind, table));
    case Failed(_) =>
      resp := Ok(SeasonTable(season, kind, []));
  }
}
