/** The shapes of the upstream competition data that the backend and the pages share, and how a
    match result is read from one team's side. */
module Football {
  import opened Wrappers

  /** One match as the upstream API returns it; a `None` score is a JSON `null`. */
  datatype Match = Match(
    id: int,
    homeId: int,
    awayId: int,
    homeShort: string,
    awayShort: string,
    status: string,
    matchday: Option<int>,
    homeGoals: Option<nat>,
    awayGoals: Option<nat>)

  /** One row of a standings table. */
  datatype Row = Row(
    teamName: string,
    crest: string,
    points: int,
    playedGames: int,
    won: int,
    draw: int,
    lost: int,
    goalsFor: int,
    goalsAgainst: int)

  /** One table of a standings response; `kind` is `TOTAL`, `HOME` or `AWAY`. */
  datatype Standing = Standing(kind: string, table: seq<Row>)

  const InPlay: string := "IN_PLAY"
  const Paused: string := "PAUSED"
  const Finished: string := "FINISHED"
  const TotalKind: string := "TOTAL"

  datatype Outcome = Win | Draw | Loss

  /** Goals scored by `teamId`: the home score when it is the home side, the away score otherwise. */
  function GoalsFor(m: Match, teamId: int): Option<nat>
  {
    if m.homeId == teamId then m.homeGoals else m.awayGoals
  }

  function GoalsAgainst(m: Match, teamId: int): Option<nat>
  {
    if m.homeId == teamId then m.awayGoals else m.homeGoals
  }

  /** JavaScript's `gf > ga` followed by `gf === ga`: `>` converts `null` to 0, `===` does not, so a
      `null` against a 0 is neither a win nor a draw. */
  function Classify(gf: Option<nat>, ga: Option<nat>): (o: Outcome)
    ensures gf.Some? && ga.Some? ==>
      && (o == Win <==> gf.value > ga.value)
      && (o == Draw <==> gf.value == ga.value)
      && (o == Loss <==> gf.value < ga.value)
    ensures gf == None && ga == Some(0) ==> o == Loss
  {
    if gf.GetOr(0) > ga.GetOr(0) then Win
    else if gf == ga then Draw
    else Loss
  }

  /** The result of `m` from the side of `teamId`. */
  function OutcomeOf(m: Match, teamId: int): (o: Outcome)
    ensures HasFullTime(m) ==> (o == Draw <==> m.homeGoals == m.awayGoals)
    ensures HasFullTime(m) ==> (o == Win <==> GoalsFor(m, teamId).value > GoalsAgainst(m, teamId).value)
  {
    Classify(GoalsFor(m, teamId), GoalsAgainst(m, teamId))
  }

  /** Points for a result: 3 for a win, 1 for a draw, none for a loss. */
  function PointsFor(o: Outcome): (p: nat)
    ensures p == 0 || p == 1 || p == 3
    ensures (p == 3 <==> o == Win) && (p == 1 <==> o == Draw)
  {
    match o
    case Win => 3
    case Draw => 1
    case Loss => 0
  }

  /** Both full-time scores are present (`!== null`). */
  predicate HasFullTime(m: Match)
  {
    m.homeGoals.Some? && m.awayGoals.Some?
  }

  predicate IsFinished(m: Match)
  {
    m.status == Finished
  }

  /** `standings.find(s => s.type === kind)?.table || []`: the table of the first standing of that
      kind, or an empty table when there is none. */
  function FindTable(standings: seq<Standing>, kind: string): (table: seq<Row>)
    ensures (exists i :: 0 <= i < |standings| && standings[i].kind == kind) ==>
      exists i :: 0 <= i < |standings| && standings[i].kind == kind && table == standings[i].table
        && forall j :: 0 <= j < i ==> standings[j].kind != kind
    ensures (forall i :: 0 <= i < |standings| ==> standings[i].kind != kind) ==> table == []
  {
    if standings == [] then []
    else if standings[0].kind == kind then standings[0].table
    else
      var t := FindTable(standings[1..], kind);
      assert forall i :: 1 <= i < |standings| ==> standings[i] == standings[1..][i - 1];
      t
  }
}
