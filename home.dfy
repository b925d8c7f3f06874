/** The home page: the live strip, the season buttons, the standings table state and the retry
    token. */
module HomePage {
  import opened Wrappers
  import opened Football
  import opened Sequences
  import Ranking

  const DefaultSeason: string := "2025"
  const DefaultType: string := "TOTAL"
  const LatestSeason: int := 2025
  const EarliestSeason: int := 2015

  predicate LiveOrPaused(m: Match)
  {
    m.status == InPlay || m.status == Paused
  }

  /** `onlyLive`: the matches in play or at half-time, in order; a missing list is empty. */
  function OnlyLive(matches: Option<seq<Match>>): (r: seq<Match>)
    ensures matches.None? ==> r == []
    ensures forall m :: m in r <==> m in matches.GetOr([]) && LiveOrPaused(m)
  {
    Filter(matches.GetOr([]), LiveOrPaused)
  }

  /** The strip keeps exactly the in-play and paused matches, each as often as it occurs, in order. */
  lemma OnlyLiveKeepsExactly(matches: Option<seq<Match>>)
    ensures matches.None? ==> OnlyLive(matches) == []
    ensures Subsequence(OnlyLive(matches), matches.GetOr([]))
    ensures forall m ::
      multiset(OnlyLive(matches))[m] == if LiveOrPaused(m) then multiset(matches.GetOr([]))[m] else 0
  {
    FilterIsSubsequence(matches.GetOr([]), LiveOrPaused);
    forall m
      ensures multiset(OnlyLive(matches))[m] == if LiveOrPaused(m) then multiset(matches.GetOr([]))[m] else 0
    {
      FilterCounts(matches.GetOr([]), LiveOrPaused, m);
    }
  }

  /** `seasonOptions`: `Array.from({ length: 2025 - 2015 + 1 }, (_, i) => 2025 - i)`. */
  function SeasonOptions(): (r: seq<int>)
    ensures |r| == 11
  {
    seq(LatestSeason - EarliestSeason + 1, i => LatestSeason - i)
  }

  /** The buttons run from 2025 down to 2015, newest first, one per season the ranking sums when
      the current year is 2025. */
  lemma SeasonOptionsDescend()
    ensures var r := SeasonOptions();
      && r[0] == 2025 && r[|r| - 1] == 2015
      && (forall i, j :: 0 <= i < j < |r| ==> r[i] > r[j])
      && (forall y :: y in r <==> 2015 <= y <= 2025)
    ensures var years := Ranking.SeasonYears(LatestSeason);
      |years| == |SeasonOptions()|
      && forall i :: 0 <= i < |years| ==> SeasonOptions()[i] == years[|years| - 1 - i]
  {
    var r := SeasonOptions();
    forall y | 2015 <= y <= 2025
      ensures y in r
    {
      assert r[2025 - y] == y;
    }
  }

  /** The answer to a standings request: a response whose `table` may be missing, or an error with
      the message the interceptor attached. */
  datatype TableFetch = Loaded(table: Option<seq<Row>>) | FetchFailed(userMessage: Option<string>)

  const TableFallback: string := "Não conseguimos carregar a classificação agora. Verifique sua conexão e tente novamente."

  /** The table and the error text after a load: the table or an empty one, and an error text only
      on failure. */
  function TableState(f: TableFetch): (r: (seq<Row>, string))
    ensures f.Loaded? ==> r.1 == "" && r.0 == (if f.table.Some? then f.table.value else [])
    ensures f.FetchFailed? ==> r.0 == [] && r.1 != ""
    ensures f.FetchFailed? && f.userMessage.Some? && f.userMessage.value != "" ==> r.1 == f.userMessage.value
  {
    match f
    case Loaded(table) => (table.GetOr([]), "")
    case FetchFailed(message) =>
      ([], if message.Some? && message.value != "" then message.value else TableFallback)
  }

  /** `setRefreshToken(prev => prev + 1)`. */
  function NextRefreshToken(prev: int): (r: int)
    ensures r > prev
  {
    prev + 1
  }
}
