/** The live page: each pushed list of matches updates the remembered score of every match and
    announces a goal when a remembered score changes; a lost connection schedules at most one
    reconnection at a time. */
module LivePage {
  import opened Wrappers
  import opened Football
  import Numerals

  /** `${home ?? 0}-${away ?? 0}`. */
  function ScoreText(m: Match): (s: string)
    ensures s != []
  {
    Numerals.NatToString(m.homeGoals.GetOr(0)) + "-" + Numerals.NatToString(m.awayGoals.GetOr(0))
  }

  /** `currentScore.replace("-", " x ")`: the first `-` becomes ` x `. */
  function ReplaceFirstDash(s: string): (r: string)
    ensures '-' !in s ==> r == s
  {
    if s == [] then []
    else if s[0] == '-' then " x " + s[1..]
    else [s[0]] + ReplaceFirstDash(s[1..])
  }

  lemma {:induction false} ReplaceDashAfterDigits(a: string, b: string)
    requires Numerals.AllDigits(a)
    ensures ReplaceFirstDash(a + "-" + b) == a + " x " + b
  {
    if a != [] {
      assert (a + "-" + b)[1..] == a[1..] + "-" + b;
      ReplaceDashAfterDigits(a[1..], b);
    }
  }

  /** The text announced with a goal: the score as `home x away`. */
  function GoalText(m: Match): (t: string)
    ensures t == Numerals.NatToString(m.homeGoals.GetOr(0)) + " x " + Numerals.NatToString(m.awayGoals.GetOr(0))
  {
    ReplaceDashAfterDigits(Numerals.NatToString(m.homeGoals.GetOr(0)), Numerals.NatToString(m.awayGoals.GetOr(0)));
    ReplaceFirstDash(ScoreText(m))
  }

  lemma DashSplitsDigits(a: string, b: string, c: string, d: string)
    requires Numerals.AllDigits(a) && Numerals.AllDigits(c)
    requires a + "-" + b == c + "-" + d
    ensures a == c && b == d
  {
    var s := a + "-" + b;
    assert s[|a|] == '-' && (c + "-" + d)[|c|] == '-';
    assert |a| == |c|;
    assert a == s[..|a|] == c;
    assert b == s[|a| + 1..] == d;
  }

  /** Two score texts are equal exactly when both scores, with `null` read as 0, are. */
  lemma ScoreTextSeparates(m: Match, n: Match)
    ensures ScoreText(m) == ScoreText(n)
        <==> m.homeGoals.GetOr(0) == n.homeGoals.GetOr(0) && m.awayGoals.GetOr(0) == n.awayGoals.GetOr(0)
  {
    var a, b := Numerals.NatToString(m.homeGoals.GetOr(0)), Numerals.NatToString(m.awayGoals.GetOr(0));
    var c, d := Numerals.NatToString(n.homeGoals.GetOr(0)), Numerals.NatToString(n.awayGoals.GetOr(0));
    if ScoreText(m) == ScoreText(n) {
      DashSplitsDigits(a, b, c, d);
    }
    Numerals.NatToStringInjective(m.homeGoals.GetOr(0), n.homeGoals.GetOr(0));
    Numerals.NatToStringInjective(m.awayGoals.GetOr(0), n.awayGoals.GetOr(0));
  }

  /** `if (prev && prev !== currentScore)`: a remembered, non-empty score that differs. */
  function Fires(scores: map<int, string>, m: Match): (fires: bool)
    ensures fires ==> m.id in scores && scores[m.id] != ScoreText(m)
    ensures m.id in scores && scores[m.id] == "" ==> !fires
  {
    m.id in scores && scores[m.id] != "" && scores[m.id] != ScoreText(m)
  }

  /** The remembered scores after a list of matches: each match overwrites its id's entry, in order. */
  function AfterMessage(prev: map<int, string>, ms: seq<Match>): (r: map<int, string>)
    ensures forall m :: m in ms ==> m.id in r
  {
    if ms == [] then prev
    else
      var front := ms[..|ms| - 1];
      var last := ms[|ms| - 1];
      assert forall m :: m in ms ==> m in front || m == last;
      AfterMessage(prev, front)[last.id := ScoreText(last)]
  }

  /** The positions in `ms` whose match announces a goal. */
  function Notified(prev: map<int, string>, ms: seq<Match>): (r: seq<nat>)
    ensures forall i :: 0 <= i < |r| ==> r[i] < |ms|
  {
    if ms == [] then []
    else
      var front := ms[..|ms| - 1];
      Notified(prev, front) + (if Fires(AfterMessage(prev, front), ms[|ms| - 1]) then [|ms| - 1] else [])
  }

  /** A match announces a goal exactly when the scores remembered just before it fire. */
  lemma {:induction false} NotifiedAt(prev: map<int, string>, ms: seq<Match>, i: nat)
    requires i < |ms|
    ensures i in Notified(prev, ms) <==> Fires(AfterMessage(prev, ms[..i]), ms[i])
  {
    var front := ms[..|ms| - 1];
    if i < |front| {
      assert front[..i] == ms[..i];
      NotifiedAt(prev, front, i);
    } else {
      assert front == ms[..i];
      assert i !in Notified(prev, front);
    }
  }

  /** An id that no match of the list carries keeps its entry, or its absence. */
  lemma {:induction false} AbsentUnchanged(prev: map<int, string>, ms: seq<Match>, k: int)
    requires forall m :: m in ms ==> m.id != k
    ensures k in AfterMessage(prev, ms) <==> k in prev
    ensures k in prev ==> AfterMessage(prev, ms)[k] == prev[k]
  {
    if ms != [] {
      var front := ms[..|ms| - 1];
      assert forall m :: m in front ==> m in ms;
      AbsentUnchanged(prev, front, k);
    }
  }

  lemma {:induction false} AfterMessageAppend(prev: map<int, string>, a: seq<Match>, b: seq<Match>)
    ensures AfterMessage(prev, a + b) == AfterMessage(AfterMessage(prev, a), b)
  {
    if b == [] {
      assert a + b == a;
    } else {
      assert (a + b)[..|a + b| - 1] == a + b[..|b| - 1];
      AfterMessageAppend(prev, a, b[..|b| - 1]);
    }
  }

  /** After the list, an id holds the score of the last match carrying it. */
  lemma LastWriteWins(prev: map<int, string>, ms: seq<Match>, i: nat)
    requires i < |ms|
    requires forall j :: i < j < |ms| ==> ms[j].id != ms[i].id
    ensures AfterMessage(prev, ms)[ms[i].id] == ScoreText(ms[i])
  {
    var k := ms[i].id;
    assert ms == ms[..i + 1] + ms[i + 1..];
    AfterMessageAppend(prev, ms[..i + 1], ms[i + 1..]);
    assert ms[..i + 1][..i] == ms[..i];
    forall m | m in ms[i + 1..]
      ensures m.id != k
    {
      var j :| 0 <= j < |ms[i + 1..]| && ms[i + 1..][j] == m;
      assert ms[i + 1 + j] == m;
    }
    AbsentUnchanged(AfterMessage(prev, ms[..i + 1]), ms[i + 1..], k);
  }

  /** The first time an id is seen, nothing is announced for it. */
  lemma FirstSightingSilent(prev: map<int, string>, ms: seq<Match>, i: nat)
    requires i < |ms| && ms[i].id !in prev
    requires forall j :: 0 <= j < i ==> ms[j].id != ms[i].id
    ensures i !in Notified(prev, ms)
  {
    NotifiedAt(prev, ms, i);
    forall m | m in ms[..i]
      ensures m.id != ms[i].id
    {
      var j :| 0 <= j < i && ms[..i][j] == m;
    }
    AbsentUnchanged(prev, ms[..i], ms[i].id);
  }

  /** With distinct ids in the list, a match announces a goal exactly when its remembered score
      is present, non-empty and different from the current one. */
  lemma NotifiedIff(prev: map<int, string>, ms: seq<Match>, i: nat)
    requires i < |ms|
    requires forall j, k :: 0 <= j < k < |ms| ==> ms[j].id != ms[k].id
    ensures i in Notified(prev, ms) <==> Fires(prev, ms[i])
  {
    NotifiedAt(prev, ms, i);
    forall m | m in ms[..i]
      ensures m.id != ms[i].id
    {
      var j :| 0 <= j < i && ms[..i][j] == m;
    }
    AbsentUnchanged(prev, ms[..i], ms[i].id);
  }

  /** A score remembered from an earlier sighting fires exactly when the goals, read with `null`
      as 0, changed. */
  lemma GoalIffScoreChanged(scores: map<int, string>, before: Match, now: Match)
    requires now.id in scores && scores[now.id] == ScoreText(before)
    ensures Fires(scores, now)
        <==> before.homeGoals.GetOr(0) != now.homeGoals.GetOr(0) || before.awayGoals.GetOr(0) != now.awayGoals.GetOr(0)
  {
    ScoreTextSeparates(before, now);
  }

  /** An event's data: text that is not JSON, or a payload whose `matches` may be missing. */
  datatype Payload = Unparsable | Parsed(matches: Option<seq<Match>>)

  const ConnectionLost: string := "Perdemos a conexão com o placar ao vivo. Tentaremos reconectar automaticamente."

  /** The page's state: the remembered scores, the matches shown, the reconnection guard
      (`retryTimeoutRef.current !== null`), the timers actually scheduled and the event sources
      opened so far. */
  class LiveFeed {
    var previousScores: map<int, string>
    var matches: seq<Match>
    var loading: bool
    var liveError: string
    var retryPending: bool
    var pendingTimers: nat
    var connections: nat
    var open: bool

    /** The guard is set exactly while one timer is scheduled, so at most one is. */
    predicate Valid()
      reads this
    {
      pendingTimers == (if retryPending then 1 else 0)
    }

    /** Mounting the page connects once. */
    constructor ()
      ensures Valid()
      ensures previousScores == map[] && matches == [] && loading && liveError == ""
      ensures !retryPending && pendingTimers == 0 && connections == 1 && open
    {
      previousScores := map[];
      matches := [];
      loading := true;
      liveError := "";
      retryPending := false;
      pendingTimers := 0;
      connections := 1;
      open := true;
    }

    /** `connect()`: clears the error and opens a new event source. */
    method Connect()
      modifies this
      ensures liveError == "" && open && connections == old(connections) + 1
      ensures previousScores == old(previousScores) && matches == old(matches) && loading == old(loading)
      ensures retryPending == old(retryPending) && pendingTimers == old(pendingTimers)
    {
      liveError := "";
      open := true;
      connections := connections + 1;
    }

    /** `es.onmessage`: remembers every score of the payload and returns the positions that
        announce a goal; an unparsable event changes only the loading and error flags. */
    method OnMessage(payload: Payload) returns (notified: seq<nat>)
      requires Valid()
      modifies this
      ensures Valid()
      ensures !loading && liveError == ""
      ensures payload.Unparsable? ==> notified == [] && previousScores == old(previousScores) && matches == old(matches)
      ensures payload.Parsed? ==>
        var ms := payload.matches.GetOr([]);
        && previousScores == AfterMessage(old(previousScores), ms)
        && notified == Notified(old(previousScores), ms)
        && matches == ms
      ensures retryPending == old(retryPending) && pendingTimers == old(pendingTimers)
      ensures connections == old(connections) && open == old(open)
    {
      loading := false;
      liveError := "";
      notified := [];
      if payload.Unparsable? {
        return;
      }
      var newMatches := payload.matches.GetOr([]);
      var scores := previousScores;
      for i := 0 to |newMatches|
        invariant scores == AfterMessage(old(previousScores), newMatches[..i])
        invariant notified == Notified(old(previousScores), newMatches[..i])
      {
        var match_ := newMatches[i];
        var key := match_.id;
        var currentScore := ScoreText(match_);
        assert newMatches[..i + 1][..i] == newMatches[..i];
        if key in scores && scores[key] != "" && scores[key] != currentScore {
          notified := notified + [i];
        }
        scores := scores[key := currentScore];
      }
      assert newMatches[..|newMatches|] == newMatches;
      previousScores := scores;
      matches := newMatches;
    }

    /** `es.onerror`: closes the source and schedules a reconnection unless one is pending. */
    method OnError()
      requires Valid()
      modifies this
      ensures Valid()
      ensures liveError == ConnectionLost && !loading && !open
      ensures retryPending && pendingTimers == 1
      ensures old(retryPending) ==> pendingTimers == old(pendingTimers)
      ensures previousScores == old(previousScores) && matches == old(matches) && connections == old(connections)
    {
      liveError := ConnectionLost;
      loading := false;
      open := false;
      if !retryPending {
        retryPending := true;
        pendingTimers := pendingTimers + 1;
      }
    }

    /** The reconnection timer fires: the guard is cleared before connecting again. */
    method OnRetryTimer()
      requires Valid() && pendingTimers > 0
      modifies this
      ensures Valid()
      ensures !retryPending && pendingTimers == 0
      ensures open && liveError == "" && connections == old(connections) + 1
      ensures previousScores == old(previousScores) && matches == old(matches) && loading == old(loading)
    {
      pendingTimers := pendingTimers - 1;
      retryPending := false;
      Connect();
    }

    /** Leaving the page: the source is closed and a pending timer is cancelled. */
    method Unmount()
      requires Valid()
      modifies this
      ensures Valid()
      ensures !open && !retryPending && pendingTimers == 0
      ensures previousScores == old(previousScores) && matches == old(matches) && connections == old(connections)
      ensures liveError == old(liveError) && loading == old(loading)
    {
      open := false;
      if retryPending {
        pendingTimers := pendingTimers - 1;
        retryPending := false;
      }
    }
  }

  /** Two errors in a row before the timer fires schedule a single reconnection. */
  method RepeatedErrorsScheduleOnce() returns (timersAfterErrors: int, connectionsAfterRetry: int, timersAfterRetry: int)
    ensures timersAfterErrors == 1
    ensures connectionsAfterRetry == 2 && timersAfterRetry == 0
  {
    var feed := new LiveFeed();
    feed.OnError();
    feed.OnError();
    timersAfterErrors := feed.pendingTimers;
    feed.OnRetryTimer();
    connectionsAfterRetry, timersAfterRetry := feed.connections, feed.pendingTimers;
  }
}
