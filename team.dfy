/** The team page: the statistics computed from one team's matches — results and points over the
    matches with a full-time score, the last-five form, the home/away split over finished matches,
    the cumulative points series and the five most recent finished matches. */
module TeamStats {
  import opened Wrappers
  import opened Football
  import opened Sequences
  import Numerals

  /** The form letters: W(in), E(mpate) for a draw, L(oss). */
  datatype Form = W | E | L

  function FormOf(o: Outcome): (f: Form)
    ensures (f == W <==> o == Win) && (f == E <==> o == Draw) && (f == L <==> o == Loss)
  {
    match o
    case Win => W
    case Draw => E
    case Loss => L
  }

  /** `jogos.filter(m => home !== null && away !== null)`: the matches with a full-time score. */
  function Played(jogos: seq<Match>): seq<Match>
  {
    Filter(jogos, HasFullTime)
  }

  /** How many of `ms` end in `o` for `teamId`. */
  function CountOutcome(ms: seq<Match>, teamId: int, o: Outcome): nat
  {
    if ms == [] then 0
    else CountOutcome(ms[..|ms| - 1], teamId, o) + (if OutcomeOf(ms[|ms| - 1], teamId) == o then 1 else 0)
  }

  /** The points `teamId` earns over `ms`. */
  function PointsOf(ms: seq<Match>, teamId: int): nat
  {
    if ms == [] then 0
    else PointsOf(ms[..|ms| - 1], teamId) + PointsFor(OutcomeOf(ms[|ms| - 1], teamId))
  }

  /** Every match is exactly one of a win, a draw or a loss, and points are three per win plus
      one per draw. */
  lemma {:induction false} CountsAddUp(ms: seq<Match>, teamId: int)
    ensures CountOutcome(ms, teamId, Win) + CountOutcome(ms, teamId, Draw) + CountOutcome(ms, teamId, Loss) == |ms|
    ensures PointsOf(ms, teamId) == 3 * CountOutcome(ms, teamId, Win) + CountOutcome(ms, teamId, Draw)
  {
    if ms != [] {
      CountsAddUp(ms[..|ms| - 1], teamId);
    }
  }

  function Min(a: int, b: int): int
  {
    if a < b then a else b
  }

  /** `s.slice(-5)`: the last five elements, or all of them when there are fewer. */
  function LastFive<T>(s: seq<T>): (r: seq<T>)
    ensures |r| == Min(5, |s|)
    ensures forall i :: 0 <= i < |r| ==> r[i] == s[|s| - |r| + i]
  {
    s[(if |s| > 5 then |s| - 5 else 0)..]
  }

  /** `s.reverse()`. */
  function Reverse<T>(s: seq<T>): (r: seq<T>)
    ensures |r| == |s|
    ensures forall i :: 0 <= i < |s| ==> r[i] == s[|s| - 1 - i]
  {
    if s == [] then [] else Reverse(s[1..]) + [s[0]]
  }

  /** `ultimos`: the form letters of the last five matches with a score, oldest first. */
  function Ultimos(played: seq<Match>, teamId: int): (r: seq<Form>)
    ensures |r| == Min(5, |played|)
    ensures forall i :: 0 <= i < |r| ==> r[i] == FormOf(OutcomeOf(played[|played| - |r| + i], teamId))
  {
    var last := LastFive(played);
    seq(|last|, i requires 0 <= i < |last| => FormOf(OutcomeOf(last[i], teamId)))
  }

  /** The counters of `calcularEstatisticas` (`pontos` feeds the win rate, which is not modelled). */
  datatype Summary = Summary(vitorias: nat, empates: nat, derrotas: nat, pontos: nat, ultimos: seq<Form>)

  /** `calcularEstatisticas(jogos, teamId)`. */
  method CalcularEstatisticas(jogos: seq<Match>, teamId: int) returns (s: Summary)
    ensures var played := Played(jogos);
      && s.vitorias == CountOutcome(played, teamId, Win)
      && s.empates == CountOutcome(played, teamId, Draw)
      && s.derrotas == CountOutcome(played, teamId, Loss)
      && s.vitorias + s.empates + s.derrotas == |played|
      && s.pontos == 3 * s.vitorias + s.empates
      && s.ultimos == Ultimos(played, teamId)
  {
    var played := Played(jogos);
    var vitorias, empates, derrotas, pontos := 0, 0, 0, 0;
    for i := 0 to |played|
      invariant vitorias == CountOutcome(played[..i], teamId, Win)
      invariant empates == CountOutcome(played[..i], teamId, Draw)
      invariant derrotas == CountOutcome(played[..i], teamId, Loss)
      invariant pontos == PointsOf(played[..i], teamId)
    {
      var m := played[i];
      var home := m.homeId == teamId;
      var golsPro := if home then m.homeGoals else m.awayGoals;
      var golsContra := if home then m.awayGoals else m.homeGoals;
      if golsPro.GetOr(0) > golsContra.GetOr(0) {
        vitorias, pontos := vitorias + 1, pontos + 3;
      } else if golsPro == golsContra {
        empates, pontos := empates + 1, pontos + 1;
      } else {
        derrotas := derrotas + 1;
      }
      assert played[..i + 1][..i] == played[..i];
    }
    assert played[..|played|] == played;
    CountsAddUp(played, teamId);
    s := Summary(vitorias, empates, derrotas, pontos, Ultimos(played, teamId));
  }

  /** The counters of one side of `mandanteVsVisitante`. */
  datatype Group = Group(jogos: nat, vitorias: nat, empates: nat, derrotas: nat, golsPro: nat, golsContra: nat)

  const EmptyGroup: Group := Group(0, 0, 0, 0, 0, 0)

  /** One finished match added to its side's counters; a `null` score adds no goals. */
  function Record(g: Group, m: Match, teamId: int): Group
  {
    var o := OutcomeOf(m, teamId);
    Group(g.jogos + 1,
          g.vitorias + (if o == Win then 1 else 0),
          g.empates + (if o == Draw then 1 else 0),
          g.derrotas + (if o == Loss then 1 else 0),
          g.golsPro + GoalsFor(m, teamId).GetOr(0),
          g.golsContra + GoalsAgainst(m, teamId).GetOr(0))
  }

  /** The finished matches `teamId` played at home (`home`) or away (`!home`), tallied. */
  function Tally(ms: seq<Match>, teamId: int, home: bool): (g: Group)
    ensures g.jogos == g.vitorias + g.empates + g.derrotas
  {
    if ms == [] then EmptyGroup
    else
      var g := Tally(ms[..|ms| - 1], teamId, home);
      var m := ms[|ms| - 1];
      if IsFinished(m) && (m.homeId == teamId) == home then Record(g, m, teamId) else g
  }

  /** Both sides together count each finished match once, and each side's games are its wins,
      draws and losses. */
  lemma {:induction false} TallyCounts(ms: seq<Match>, teamId: int)
    ensures Tally(ms, teamId, true).jogos + Tally(ms, teamId, false).jogos == |Filter(ms, IsFinished)|
    ensures var h := Tally(ms, teamId, true); h.jogos == h.vitorias + h.empates + h.derrotas
    ensures var a := Tally(ms, teamId, false); a.jogos == a.vitorias + a.empates + a.derrotas
  {
    if ms != [] {
      TallyCounts(ms[..|ms| - 1], teamId);
    }
  }

  /** A finished match with no score at all counts as a game and a draw (`null === null`) and adds
      no goals. */
  lemma ScorelessFinishedMatch(ms: seq<Match>, m: Match, teamId: int)
    requires IsFinished(m) && m.homeGoals == None && m.awayGoals == None
    ensures var side := m.homeId == teamId;
      var before, after := Tally(ms, teamId, side), Tally(ms + [m], teamId, side);
      && after.jogos == before.jogos + 1
      && after.empates == before.empates + 1
      && after.golsPro == before.golsPro
      && after.golsContra == before.golsContra
  {
    assert (ms + [m])[..|ms|] == ms;
  }

  /** One more match changes only the counters of its own side, and only when it is finished. */
  lemma TallyStep(ms: seq<Match>, i: int, teamId: int, home: bool)
    requires 0 <= i < |ms|
    ensures Tally(ms[..i + 1], teamId, home)
            == if IsFinished(ms[i]) && (ms[i].homeId == teamId) == home
               then Record(Tally(ms[..i], teamId, home), ms[i], teamId)
               else Tally(ms[..i], teamId, home)
  {
    assert ms[..i + 1][..i] == ms[..i];
  }

  /** `mandanteVsVisitante`: the home and away counters over finished matches. */
  method MandanteVsVisitante(matches: seq<Match>, teamId: int) returns (home: Group, away: Group)
    ensures home == Tally(matches, teamId, true) && away == Tally(matches, teamId, false)
    ensures home.jogos + away.jogos == |Filter(matches, IsFinished)|
    ensures home.jogos == home.vitorias + home.empates + home.derrotas
    ensures away.jogos == away.vitorias + away.empates + away.derrotas
  {
    home, away := EmptyGroup, EmptyGroup;
    for i := 0 to |matches|
      invariant home == Tally(matches[..i], teamId, true)
      invariant away == Tally(matches[..i], teamId, false)
    {
      TallyStep(matches, i, teamId, true);
      TallyStep(matches, i, teamId, false);
      var m := matches[i];
      if m.status != Finished {
        continue;
      }
      var isHome := m.homeId == teamId;
      ghost var before := if isHome then home else away;
      var grupo := if isHome then home else away;
      grupo := grupo.(jogos := grupo.jogos + 1);
      var golsPro := if isHome then m.homeGoals else m.awayGoals;
      var golsContra := if isHome then m.awayGoals else m.homeGoals;
      grupo := grupo.(golsPro := grupo.golsPro + golsPro.GetOr(0), golsContra := grupo.golsContra + golsContra.GetOr(0));
      if golsPro.GetOr(0) > golsContra.GetOr(0) {
        grupo := grupo.(vitorias := grupo.vitorias + 1);
      } else if golsPro == golsContra {
        grupo := grupo.(empates := grupo.empates + 1);
      } else {
        grupo := grupo.(derrotas := grupo.derrotas + 1);
      }
      assert grupo == Record(before, m, teamId);
      if isHome {
        home := grupo;
      } else {
        away := grupo;
      }
    }
    assert matches[..|matches|] == matches;
    TallyCounts(matches, teamId);
  }

  /** The cumulative points series over `played`: entry `i` is the points after match `i`. */
  function Series(played: seq<Match>, teamId: int): (r: seq<nat>)
    ensures |r| == |played|
  {
    seq(|played|, i requires 0 <= i < |played| => PointsOf(played[..i + 1], teamId))
  }

  /** The points after one more match grow by that match's points. */
  lemma PointsOfStep(ps: seq<Match>, i: int, teamId: int)
    requires 0 <= i < |ps|
    ensures PointsOf(ps[..i + 1], teamId) == PointsOf(ps[..i], teamId) + PointsFor(OutcomeOf(ps[i], teamId))
  {
    assert ps[..i + 1][..i] == ps[..i];
  }

  /** Each step of the series is 0, 1 or 3 points. */
  lemma SeriesSteps(played: seq<Match>, teamId: int, i: int)
    requires 0 <= i < |played|
    ensures var r := Series(played, teamId);
      var step := r[i] as int - (if i == 0 then 0 else r[i - 1]);
      step == 0 || step == 1 || step == 3
  {
    PointsOfStep(played, i, teamId);
    if i == 0 {
      assert played[..0] == [];
    }
  }

  /** The series never decreases. */
  lemma {:induction false} SeriesMonotone(played: seq<Match>, teamId: int, i: int, j: int)
    requires 0 <= i <= j < |played|
    ensures Series(played, teamId)[i] <= Series(played, teamId)[j]
    decreases j - i
  {
    if i < j {
      SeriesMonotone(played, teamId, i, j - 1);
      PointsOfStep(played, j, teamId);
    }
  }

  /** `pontosAcumulados` over the matches in date order: after each match with a score, the points
      earned so far. */
  method PontosAcumulados(byDate: seq<Match>, teamId: int) returns (acumulado: seq<nat>)
    ensures acumulado == Series(Played(byDate), teamId)
  {
    var sorted := Played(byDate);
    var pontos := 0;
    acumulado := [];
    for i := 0 to |sorted|
      invariant |acumulado| == i
      invariant pontos == PointsOf(sorted[..i], teamId)
      invariant forall k :: 0 <= k < i ==> acumulado[k] == PointsOf(sorted[..k + 1], teamId)
    {
      var m := sorted[i];
      var home := m.homeId == teamId;
      var golsPro := if home then m.homeGoals else m.awayGoals;
      var golsContra := if home then m.awayGoals else m.homeGoals;
      if golsPro.GetOr(0) > golsContra.GetOr(0) {
        pontos := pontos + 3;
      } else if golsPro == golsContra {
        pontos := pontos + 1;
      }
      PointsOfStep(sorted, i, teamId);
      acumulado := acumulado + [pontos];
    }
  }

  /** The last value of the cumulative series is the points total of the summary. */
  lemma SeriesEndsAtTotal(jogos: seq<Match>, teamId: int)
    requires |Played(jogos)| > 0
    ensures var played := Played(jogos);
      Series(played, teamId)[|played| - 1]
        == 3 * CountOutcome(played, teamId, Win) + CountOutcome(played, teamId, Draw)
  {
    var played := Played(jogos);
    assert played[..|played|] == played;
    CountsAddUp(played, teamId);
  }

  /** One entry of `destaquesRecentes` (the localized date is not modelled). */
  datatype Highlight = Highlight(id: int, adversario: string, resultado: string, placar: string)

  /** The result label. The page's file spells the win label as the characters below: "Vitória"
      stored as UTF-8 and read back in another encoding. */
  function ResultLabel(o: Outcome): (text: string)
    ensures text == "Empate" <==> o == Draw
    ensures text == "Derrota" <==> o == Loss
    ensures text != ""
  {
    match o
    case Win => "Vit\U{221A}\U{2265}ria"
    case Draw => "Empate"
    case Loss => "Derrota"
  }

  /** One highlight: the match, the other side's short name, the result label from `teamId`'s side
      and the score with a `null` shown as 0. */
  function HighlightOf(m: Match, teamId: int): (h: Highlight)
    ensures h.id == m.id
    ensures h.resultado == "Empate" <==> OutcomeOf(m, teamId) == Draw
    ensures h.resultado == "Derrota" <==> OutcomeOf(m, teamId) == Loss
    ensures m.homeId == teamId ==> h.adversario == m.awayShort
    ensures m.homeId != teamId ==> h.adversario == m.homeShort
    ensures h.placar == Numerals.NatToString(m.homeGoals.GetOr(0)) + " x " + Numerals.NatToString(m.awayGoals.GetOr(0))
  {
    Highlight(m.id,
              if m.homeId == teamId then m.awayShort else m.homeShort,
              ResultLabel(OutcomeOf(m, teamId)),
              Numerals.NatToString(m.homeGoals.GetOr(0)) + " x " + Numerals.NatToString(m.awayGoals.GetOr(0)))
  }

  /** A run of digits ends where " x " begins, so the two numbers are read back unambiguously. */
  lemma SeparatorSplitsDigits(a: string, b: string, c: string, d: string)
    requires Numerals.AllDigits(a) && Numerals.AllDigits(c)
    requires a + " x " + b == c + " x " + d
    ensures a == c && b == d
  {
    var s := a + " x " + b;
    assert s[|a|] == ' ' && (c + " x " + d)[|c|] == ' ';
    assert |a| == |c|;
    assert a == s[..|a|] == c;
    assert b == s[|a| + 3..] == d;
  }

  /** Two highlights show the same score exactly when both scores, `null` read as 0, are equal. */
  lemma PlacarSeparates(m: Match, n: Match, teamId: int)
    ensures HighlightOf(m, teamId).placar == HighlightOf(n, teamId).placar
        <==> m.homeGoals.GetOr(0) == n.homeGoals.GetOr(0) && m.awayGoals.GetOr(0) == n.awayGoals.GetOr(0)
  {
    var a, b := Numerals.NatToString(m.homeGoals.GetOr(0)), Numerals.NatToString(m.awayGoals.GetOr(0));
    var c, d := Numerals.NatToString(n.homeGoals.GetOr(0)), Numerals.NatToString(n.awayGoals.GetOr(0));
    if HighlightOf(m, teamId).placar == HighlightOf(n, teamId).placar {
      SeparatorSplitsDigits(a, b, c, d);
    }
    Numerals.NatToStringInjective(m.homeGoals.GetOr(0), n.homeGoals.GetOr(0));
    Numerals.NatToStringInjective(m.awayGoals.GetOr(0), n.awayGoals.GetOr(0));
  }

  /** `destaquesRecentes`: the last five finished matches, most recent first. */
  function DestaquesRecentes(matches: seq<Match>, teamId: int): (r: seq<Highlight>)
    ensures var finished := Filter(matches, IsFinished);
      && |r| == Min(5, |finished|)
      && forall i :: 0 <= i < |r| ==> r[i] == HighlightOf(finished[|finished| - 1 - i], teamId)
  {
    var recent := LastFive(Filter(matches, IsFinished));
    Reverse(seq(|recent|, i requires 0 <= i < |recent| => HighlightOf(recent[i], teamId)))
  }

  /** Each highlight is a finished match of the input. */
  lemma HighlightsAreFinishedMatches(matches: seq<Match>, teamId: int, i: int)
    requires 0 <= i < |DestaquesRecentes(matches, teamId)|
    ensures exists m :: m in matches && IsFinished(m) && DestaquesRecentes(matches, teamId)[i] == HighlightOf(m, teamId)
  {
    var finished := Filter(matches, IsFinished);
    assert finished[|finished| - 1 - i] in finished;
  }
}
