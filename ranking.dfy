/** `GET /api/ranking`: the all-time ranking built from every season's TOTAL standings table from
    2015 to the current year, accumulated per club name, with the goal difference derived at the
    end and the clubs ordered by points. The season responses, the clock and the cache file are
    inputs. */
module Ranking {
  import opened Wrappers
  import opened Football
  import opened Sequences
  import opened Sorting

  /** The counters summed per club. */
  datatype Totals = Totals(
    pontos: int,
    jogos: int,
    vitorias: int,
    empates: int,
    derrotas: int,
    golsPro: int,
    golsContra: int)

  const Zero: Totals := Totals(0, 0, 0, 0, 0, 0, 0)

  function RowTotals(t: Row): Totals
  {
    Totals(t.points, t.playedGames, t.won, t.draw, t.lost, t.goalsFor, t.goalsAgainst)
  }

  function Add(a: Totals, b: Totals): Totals
  {
    Totals(a.pontos + b.pontos, a.jogos + b.jogos, a.vitorias + b.vitorias, a.empates + b.empates,
           a.derrotas + b.derrotas, a.golsPro + b.golsPro, a.golsContra + b.golsContra)
  }

  /** One entry of the accumulator object: the name, the crest first seen, the running totals. */
  datatype Club = Club(nome: string, escudo: string, totals: Totals)

  /** One entry of the answer: the club with its goal difference. */
  datatype RankedClub = RankedClub(nome: string, escudo: string, totals: Totals, saldo: int)

  const FirstSeason: int := 2015

  /** The seasons requested: 2015 up to and including the current year (none before 2015). */
  function SeasonYears(currentYear: int): (years: seq<int>)
    ensures |years| == if currentYear < FirstSeason then 0 else currentYear - FirstSeason + 1
    ensures forall i :: 0 <= i < |years| ==> years[i] == FirstSeason + i
    ensures forall i, j :: 0 <= i < j < |years| ==> years[i] < years[j]
    ensures currentYear >= FirstSeason ==> years[0] == FirstSeason && years[|years| - 1] == currentYear
  {
    seq(if currentYear < FirstSeason then 0 else currentYear - FirstSeason + 1, i => FirstSeason + i)
  }

  /** The rows a season adds: its TOTAL table when the request succeeded, nothing when it failed. */
  function TotalRows(season: Option<seq<Standing>>): seq<Row>
  {
    match season
    case None => []
    case Some(standings) => FindTable(standings, TotalKind)
  }

  /** Every row folded, season after season. */
  function SeasonRows(fetched: seq<Option<seq<Standing>>>): seq<Row>
  {
    if fetched == [] then []
    else SeasonRows(fetched[..|fetched| - 1]) + TotalRows(fetched[|fetched| - 1])
  }

  /** Some row carries the club name `nome`. */
  predicate Named(rows: seq<Row>, nome: string)
  {
    exists t :: t in rows && t.teamName == nome
  }

  /** What one row adds to the totals of club `nome`. */
  function Step(t: Row, nome: string): Totals
  {
    if t.teamName == nome then RowTotals(t) else Zero
  }

  /** The totals of every row carrying the club name `nome`. */
  function SumFor(rows: seq<Row>, nome: string): Totals
  {
    if rows == [] then Zero
    else Add(SumFor(rows[..|rows| - 1], nome), Step(rows[|rows| - 1], nome))
  }

  lemma SumForSnoc(rows: seq<Row>, t: Row, nome: string)
    ensures SumFor(rows + [t], nome) == Add(SumFor(rows, nome), Step(t, nome))
  {
    assert (rows + [t])[..|rows|] == rows;
  }

  /** The crest of the first row carrying the club name `nome`. */
  function FirstCrest(rows: seq<Row>, nome: string): string
  {
    if rows == [] then ""
    else if Named(rows[..|rows| - 1], nome) then FirstCrest(rows[..|rows| - 1], nome)
    else if rows[|rows| - 1].teamName == nome then rows[|rows| - 1].crest
    else ""
  }

  function Names(rows: seq<Row>): (names: seq<string>)
    ensures |names| == |rows|
    ensures forall i :: 0 <= i < |rows| ==> names[i] == rows[i].teamName
  {
    seq(|rows|, i requires 0 <= i < |rows| => rows[i].teamName)
  }

  /** The club names in order of first appearance. This is the order `Object.values` gives the
      accumulator's entries as long as no club name is an integer-like key. */
  function ClubNames(rows: seq<Row>): seq<string>
  {
    Dedup(Names(rows))
  }

  lemma ClubNamesAreNamed(rows: seq<Row>, nome: string)
    ensures nome in ClubNames(rows) <==> Named(rows, nome)
  {
    if Named(rows, nome) {
      var t :| t in rows && t.teamName == nome;
      var i :| 0 <= i < |rows| && rows[i] == t;
      assert Names(rows)[i] == nome;
    }
    if nome in ClubNames(rows) {
      var i :| 0 <= i < |rows| && Names(rows)[i] == nome;
      assert rows[i] in rows;
    }
  }

  lemma {:induction false} SumForUnnamed(rows: seq<Row>, nome: string)
    requires !Named(rows, nome)
    ensures SumFor(rows, nome) == Zero
  {
    if rows != [] {
      var front := rows[..|rows| - 1];
      assert forall t :: t in front ==> t in rows;
      SumForUnnamed(front, nome);
    }
  }

  /** Summing over a concatenation adds the two sums. */
  lemma {:induction false} SumForAppend(a: seq<Row>, b: seq<Row>, nome: string)
    ensures SumFor(a + b, nome) == Add(SumFor(a, nome), SumFor(b, nome))
    decreases |b|
  {
    if b == [] {
      assert a + b == a;
    } else {
      var front, last := b[..|b| - 1], b[|b| - 1];
      SumForAppend(a, front, nome);
      DropLastOfAppend(a, b);
      calc {
        SumFor(a + b, nome);
        Add(SumFor(a + front, nome), Step(last, nome));
        Add(Add(SumFor(a, nome), SumFor(front, nome)), Step(last, nome));
        Add(SumFor(a, nome), Add(SumFor(front, nome), Step(last, nome)));
        Add(SumFor(a, nome), SumFor(b, nome));
      }
    }
  }

  /** The club names after one more row: a new name is appended, a known one changes nothing. */
  lemma ClubNamesSnoc(rows: seq<Row>, t: Row)
    ensures ClubNames(rows + [t]) == if Named(rows, t.teamName) then ClubNames(rows) else ClubNames(rows) + [t.teamName]
  {
    var all := rows + [t];
    assert Names(all)[..|all| - 1] == Names(rows);
    ClubNamesAreNamed(rows, t.teamName);
  }

  /** What one more row does to the sums and the first crest of club `nome`. */
  lemma FoldStepFor(rows: seq<Row>, t: Row, nome: string)
    ensures SumFor(rows + [t], nome) == if t.teamName == nome then Add(SumFor(rows, nome), RowTotals(t)) else SumFor(rows, nome)
    ensures Named(rows, nome) ==> FirstCrest(rows + [t], nome) == FirstCrest(rows, nome)
    ensures !Named(rows, nome) && t.teamName == nome ==> FirstCrest(rows + [t], nome) == t.crest
  {
    assert (rows + [t])[..|rows|] == rows;
  }

  /** The derived fields: `saldo = golsPro - golsContra`. */
  function Derive(c: Club): (r: RankedClub)
    ensures r.nome == c.nome && r.escudo == c.escudo && r.totals == c.totals
    ensures r.saldo == c.totals.golsPro - c.totals.golsContra
  {
    RankedClub(c.nome, c.escudo, c.totals, c.totals.golsPro - c.totals.golsContra)
  }

  /** The comparator `(a, b) => b.pontos - a.pontos`: `a` may come first when it has at least as many points. */
  function PointsFirst(a: RankedClub, b: RankedClub): bool
  {
    a.totals.pontos >= b.totals.pontos
  }

  /** The complete entry for club `nome` after folding `rows`. */
  function EntryFor(rows: seq<Row>, nome: string): RankedClub
  {
    Derive(Club(nome, FirstCrest(rows, nome), SumFor(rows, nome)))
  }

  function Unsorted(rows: seq<Row>): (entries: seq<RankedClub>)
    ensures |entries| == |ClubNames(rows)|
    ensures forall i :: 0 <= i < |entries| ==> entries[i] == EntryFor(rows, ClubNames(rows)[i])
  {
    var names := ClubNames(rows);
    seq(|names|, i requires 0 <= i < |names| => EntryFor(rows, names[i]))
  }

  /** The answer of a rebuild over `rows`: one derived entry per club, sorted by points. */
  function RankingOf(rows: seq<Row>): (r: seq<RankedClub>)
    ensures |r| == |ClubNames(rows)|
  {
    InsertionSort(Unsorted(rows), PointsFirst)
  }

  /** The ranking is ordered by points, highest first. */
  lemma RankingOrderedByPoints(rows: seq<Row>)
    ensures forall i, j :: 0 <= i < j < |RankingOf(rows)| ==>
      RankingOf(rows)[i].totals.pontos >= RankingOf(rows)[j].totals.pontos
  {
    assert TotalPreorder(PointsFirst);
    InsertionSortSorted(Unsorted(rows), PointsFirst);
  }

  /** Every entry carries, for its club, the sums of all its rows, the crest of its first row and
      the goal difference of those sums. */
  lemma RankingEntriesAreTotals(rows: seq<Row>)
    ensures forall e :: e in RankingOf(rows) ==>
      && Named(rows, e.nome)
      && e.totals == SumFor(rows, e.nome)
      && e.escudo == FirstCrest(rows, e.nome)
      && e.saldo == e.totals.golsPro - e.totals.golsContra
  {
    var u := Unsorted(rows);
    forall e | e in RankingOf(rows)
      ensures Named(rows, e.nome) && e == EntryFor(rows, e.nome)
    {
      assert e in multiset(u);
      var i :| 0 <= i < |u| && u[i] == e;
      ClubNamesAreNamed(rows, ClubNames(rows)[i]);
    }
  }

  /** Each entry of the ranking is the complete entry of its club. */
  lemma RankingEntriesAreEntries(rows: seq<Row>)
    ensures forall e :: e in RankingOf(rows) ==> e == EntryFor(rows, e.nome)
  {
    var u := Unsorted(rows);
    forall e | e in RankingOf(rows)
      ensures e == EntryFor(rows, e.nome)
    {
      assert e in multiset(u);
    }
  }

  /** No club name occurs twice in the ranking. */
  lemma RankingNamesDistinct(rows: seq<Row>)
    ensures forall i, j :: 0 <= i < j < |RankingOf(rows)| ==> RankingOf(rows)[i].nome != RankingOf(rows)[j].nome
  {
    var u, r := Unsorted(rows), RankingOf(rows);
    var names := ClubNames(rows);
    assert Distinct(u) by {
      forall i, j | 0 <= i < j < |u|
        ensures u[i] != u[j]
      {
        assert u[i].nome == names[i] && u[j].nome == names[j];
      }
    }
    PermutationKeepsDistinct(u, r);
    RankingEntriesAreEntries(rows);
    forall i, j | 0 <= i < j < |r|
      ensures r[i].nome != r[j].nome
    {
      assert r[i] in r && r[j] in r;
    }
  }

  /** Every club name that occurs in the rows has an entry in the ranking, and no other name has. */
  lemma RankingCoversClubs(rows: seq<Row>, nome: string)
    ensures Named(rows, nome) <==> exists e :: e in RankingOf(rows) && e.nome == nome
  {
    var u, r := Unsorted(rows), RankingOf(rows);
    var names := ClubNames(rows);
    ClubNamesAreNamed(rows, nome);
    if Named(rows, nome) {
      var i :| 0 <= i < |names| && names[i] == nome;
      assert u[i] in multiset(r);
    }
    RankingEntriesAreTotals(rows);
  }

  /** The totals of a club summed season by season: a failed season adds nothing. */
  function SeasonSum(fetched: seq<Option<seq<Standing>>>, nome: string): Totals
  {
    if fetched == [] then Zero
    else Add(SeasonSum(fetched[..|fetched| - 1], nome), SumFor(TotalRows(fetched[|fetched| - 1]), nome))
  }

  /** The totals summed over all folded rows are the per-season sums over the seasons fetched. */
  lemma {:induction false} SumForSeasonRows(fetched: seq<Option<seq<Standing>>>, nome: string)
    ensures SumFor(SeasonRows(fetched), nome) == SeasonSum(fetched, nome)
  {
    if fetched != [] {
      var front := fetched[..|fetched| - 1];
      SumForSeasonRows(front, nome);
      SumForAppend(SeasonRows(front), TotalRows(fetched[|fetched| - 1]), nome);
    }
  }

  /** A season whose request failed leaves the rows, and hence the ranking, exactly as if that season
      had not been requested: the loop goes on with the next season. */
  lemma {:induction false} FailedSeasonAddsNothing(before: seq<Option<seq<Standing>>>, after: seq<Option<seq<Standing>>>)
    ensures SeasonRows(before + [None] + after) == SeasonRows(before + after)
    ensures RankingOf(SeasonRows(before + [None] + after)) == RankingOf(SeasonRows(before + after))
    decreases |after|
  {
    if after == [] {
      assert (before + [None] + after)[..|before| + 1 - 1] == before;
      assert before + after == before;
    } else {
      var front := after[..|after| - 1];
      FailedSeasonAddsNothing(before, front);
      assert (before + [None] + after)[..|before + [None] + after| - 1] == before + [None] + front;
      assert (before + after)[..|before + after| - 1] == before + front;
    }
  }

  /** The accumulator object `acumulado` with its key order, updated in place row by row. */
  class Accumulator {
    var order: seq<string>
    var clubs: map<string, Club>
    /** The rows folded so far. */
    ghost var folded: seq<Row>

    ghost predicate Valid()
      reads this
    {
      && order == ClubNames(folded)
      && (forall n :: n in clubs <==> n in order)
      && (forall n :: n in clubs ==> clubs[n] == Club(n, FirstCrest(folded, n), SumFor(folded, n)))
    }

    constructor ()
      ensures Valid() && folded == []
    {
      order, clubs := [], map[];
      folded := [];
    }

    /** One iteration of `for (const t of table)`: create the club on first sight, then add each counter. */
    method FoldRow(t: Row)
      requires Valid()
      modifies this
      ensures Valid() && folded == old(folded) + [t]
    {
      ghost var before, known := folded, clubs;
      var nome := t.teamName;
      ClubNamesAreNamed(before, nome);
      ClubNamesSnoc(before, t);
      if nome !in clubs {
        SumForUnnamed(before, nome);
        clubs := clubs[nome := Club(nome, t.crest, Zero)];
        order := order + [nome];
      }
      var c := clubs[nome];
      clubs := clubs[nome := c.(totals := Add(c.totals, RowTotals(t)))];
      folded := folded + [t];
      forall n | n in clubs
        ensures clubs[n] == Club(n, FirstCrest(folded, n), SumFor(folded, n))
      {
        FoldStepFor(before, t, n);
        if n != nome {
          ClubNamesAreNamed(before, n);
          assert n in known && clubs[n] == known[n];
        }
      }
    }

    /** The inner loop over one season's table. */
    method FoldTable(table: seq<Row>)
      requires Valid()
      modifies this
      ensures Valid() && folded == old(folded) + table
    {
      for i := 0 to |table|
        invariant Valid()
        invariant folded == old(folded) + table[..i]
      {
        FoldRow(table[i]);
        assert table[..i + 1] == table[..i] + [table[i]];
      }
    }

    /** `Object.values(acumulado).map(derive).sort(byPoints)`. */
    method Ranking() returns (r: seq<RankedClub>)
      requires Valid()
      ensures r == RankingOf(folded)
    {
      var names, entries := order, clubs;
      var derived := seq(|names|, i requires 0 <= i < |names| && names[i] in entries => Derive(entries[names[i]]));
      assert derived == Unsorted(folded);
      r := InsertionSort(derived, PointsFirst);
    }
  }

  /** The rebuild: request every season of `years` in order (`fetched[i]` is the outcome for
      `years[i]`), fold the TOTAL table of each one fetched, skipping failed ones, then derive and
      sort. */
  method BuildRanking(years: seq<int>, fetched: seq<Option<seq<Standing>>>)
    returns (ranking: seq<RankedClub>, requested: seq<int>)
    requires |fetched| == |years|
    ensures requested == years
    ensures ranking == RankingOf(SeasonRows(fetched))
  {
    var acc := new Accumulator();
    requested := [];
    for i := 0 to |fetched|
      invariant acc.Valid()
      invariant acc.folded == SeasonRows(fetched[..i])
      invariant requested == years[..i]
    {
      assert years[..i + 1] == years[..i] + [years[i]];
      requested := requested + [years[i]];
      assert fetched[..i + 1][..i] == fetched[..i];
      match fetched[i]
      case None =>
      case Some(standings) =>
        acc.FoldTable(FindTable(standings, TotalKind));
    }
    assert fetched[..|fetched|] == fetched;
    assert years[..|years|] == years;
    ranking := acc.Ranking();
  }

  const HourMillis: int := 1000 * 60 * 60
  const DayMillis: int := 24 * HourMillis

  /** The cache file is reused when its age in hours, `(now - mtime) / 3600000`, is under 24. */
  function IsFresh(now: int, mtime: int): (reused: bool)
    ensures reused <==> now - mtime < DayMillis
  {
    (now - mtime) as real / (HourMillis as real) < 24.0
  }

  /** The ranking cache file: its modification time and its contents. */
  datatype CacheFile = CacheFile(mtime: int, ranking: seq<RankedClub>)

  /** What the route does: the ranking it answers, the seasons it requests upstream, and what it
      writes to the cache file. */
  datatype RankingReply = RankingReply(ranking: seq<RankedClub>, requested: seq<int>, written: Option<seq<RankedClub>>)

  /** `GET /api/ranking`: a fresh cache file is answered as is with no upstream request; otherwise
      every season from 2015 to `currentYear` is requested (`fetched[i]` is the outcome for season
      2015 + i), the ranking is rebuilt, written and answered. */
  method HandleRanking(cacheFile: Option<CacheFile>, now: int, currentYear: int,
                       fetched: seq<Option<seq<Standing>>>)
    returns (reply: RankingReply)
    requires |fetched| == |SeasonYears(currentYear)|
    ensures cacheFile.Some? && IsFresh(now, cacheFile.value.mtime) ==>
      reply == RankingReply(cacheFile.value.ranking, [], None)
    ensures !(cacheFile.Some? && IsFresh(now, cacheFile.value.mtime)) ==>
      && reply.ranking == RankingOf(SeasonRows(fetched))
      && reply.requested == SeasonYears(currentYear)
      && reply.written == Some(reply.ranking)
  {
    if cacheFile.Some? && IsFresh(now, cacheFile.value.mtime) {
      return RankingReply(cacheFile.value.ranking, [], None);
    }
    var ranking, requested := BuildRanking(SeasonYears(currentYear), fetched);
    reply := RankingReply(ranking, requested, Some(ranking));
  }
}
