/** The matches page: the three-way filter over the loaded matches, the change of one filter, the
    team options (one per team id, named after its last short name, sorted by name) and the round
    options (distinct, non-zero, ascending). */
module MatchesPage {
  import opened Wrappers
  import opened Football
  import opened Sequences
  import opened Sorting
  import Numerals

  const All: string := "all"

  /** The select values; each is `"all"` or the option's value as text. */
  datatype Filters = Filters(round: string, status: string, team: string)

  const NoFilters: Filters := Filters(All, All, All)

  /** `match.matchday === Number(filters.round)` and the like: `Number` of the text, compared exactly. */
  predicate RoundOk(m: Match, f: Filters)
  {
    f.round == All || (m.matchday.Some? && Numerals.NumberOf(f.round) == Some(m.matchday.value))
  }

  predicate StatusOk(m: Match, f: Filters)
  {
    f.status == All || m.status == f.status
  }

  predicate TeamOk(m: Match, f: Filters)
  {
    f.team == All
    || Numerals.NumberOf(f.team) == Some(m.homeId)
    || Numerals.NumberOf(f.team) == Some(m.awayId)
  }

  predicate Keep(f: Filters, m: Match)
  {
    RoundOk(m, f) && StatusOk(m, f) && TeamOk(m, f)
  }

  /** The filter effect: the matches passing all three tests. */
  function FilterMatches(matches: seq<Match>, f: Filters): (r: seq<Match>)
    ensures |r| <= |matches|
    ensures forall m :: m in r <==> m in matches && RoundOk(m, f) && StatusOk(m, f) && TeamOk(m, f)
  {
    Filter(matches, m => Keep(f, m))
  }

  /** The filtered list keeps the order of the matches and only matches passing every test. */
  lemma FilteredIsOrderedSelection(matches: seq<Match>, f: Filters)
    ensures Subsequence(FilterMatches(matches, f), matches)
    ensures forall m :: m in FilterMatches(matches, f) ==> RoundOk(m, f) && StatusOk(m, f) && TeamOk(m, f)
  {
    FilterIsSubsequence(matches, m => Keep(f, m));
  }

  /** With every filter on "all", nothing is dropped. */
  lemma NoFiltersKeepAll(matches: seq<Match>)
    ensures FilterMatches(matches, NoFilters) == matches
  {
    FilterAll(matches, m => Keep(NoFilters, m));
  }

  /** Choosing team `id` (its option value is `String(id)`) keeps exactly the matches it plays in,
      home or away. */
  lemma TeamFilterKeepsItsMatches(matches: seq<Match>, id: nat, m: Match)
    requires m in matches
    ensures m in FilterMatches(matches, Filters(All, All, Numerals.NatToString(id)))
        <==> m.homeId == id || m.awayId == id
  {
    var f := Filters(All, All, Numerals.NatToString(id));
    Numerals.NumberOfNatToString(id);
    if m.homeId == id || m.awayId == id {
      FilterCounts(matches, m => Keep(f, m), m);
      assert m in multiset(matches);
    }
  }

  /** Choosing round `n` keeps exactly the matches of matchday `n`. */
  lemma RoundFilterKeepsItsMatches(matches: seq<Match>, n: nat, m: Match)
    requires m in matches
    ensures m in FilterMatches(matches, Filters(Numerals.NatToString(n), All, All))
        <==> m.matchday == Some(n)
  {
    var f := Filters(Numerals.NatToString(n), All, All);
    Numerals.NumberOfNatToString(n);
    assert Numerals.NatToString(n) != All by {
      assert Numerals.NatToString(n)[0] != All[0];
    }
    if m.matchday == Some(n) {
      FilterCounts(matches, m => Keep(f, m), m);
      assert m in multiset(matches);
    }
  }

  datatype FilterKey = RoundKey | StatusKey | TeamKey

  /** `handleFilterChange(key, value)`: `{ ...prev, [key]: value }`. */
  function HandleFilterChange(prev: Filters, key: FilterKey, value: string): (next: Filters)
    ensures next.round == (if key == RoundKey then value else prev.round)
    ensures next.status == (if key == StatusKey then value else prev.status)
    ensures next.team == (if key == TeamKey then value else prev.team)
  {
    match key
    case RoundKey => prev.(round := value)
    case StatusKey => prev.(status := value)
    case TeamKey => prev.(team := value)
  }

  /** Setting a filter to the value it already has changes nothing, and a second change of the same
      key overrides the first. */
  lemma FilterChangesCompose(prev: Filters, key: FilterKey, v: string, w: string)
    ensures HandleFilterChange(HandleFilterChange(prev, key, v), key, w) == HandleFilterChange(prev, key, w)
    ensures HandleFilterChange(prev, key, v) == prev
        <==> v == (match key case RoundKey => prev.round case StatusKey => prev.status case TeamKey => prev.team)
  {
  }

  /** The team ids in the order the `Map` sees them: home then away, match by match. */
  function SideIds(ms: seq<Match>): seq<int>
  {
    if ms == [] then []
    else SideIds(ms[..|ms| - 1]) + [ms[|ms| - 1].homeId, ms[|ms| - 1].awayId]
  }

  lemma {:induction false} SideIdsPlays(ms: seq<Match>, k: int)
    ensures k in SideIds(ms) <==> exists m :: m in ms && (m.homeId == k || m.awayId == k)
  {
    if ms != [] {
      var front, last := ms[..|ms| - 1], ms[|ms| - 1];
      assert ms == front + [last];
      SideIdsPlays(front, k);
      if k in SideIds(front) {
        var m :| m in front && (m.homeId == k || m.awayId == k);
        assert m in ms;
      }
      if exists m :: m in ms && (m.homeId == k || m.awayId == k) {
        var m :| m in ms && (m.homeId == k || m.awayId == k);
        assert m in front || m == last;
      }
    }
  }

  /** The short name last written for `id`: within one match the away side is written after the home side. */
  function LastName(ms: seq<Match>, id: int): (r: Option<string>)
    ensures r.Some? <==> id in SideIds(ms)
  {
    if ms == [] then None
    else
      var last := ms[|ms| - 1];
      if last.awayId == id then Some(last.awayShort)
      else if last.homeId == id then Some(last.homeShort)
      else LastName(ms[..|ms| - 1], id)
  }

  datatype TeamOption = TeamOption(id: int, name: string)

  /** The comparator `(a, b) => a.name.localeCompare(b.name)`, over a given ordering of names. */
  function ByName(nameLe: (string, string) -> bool): (TeamOption, TeamOption) -> bool
  {
    (a: TeamOption, b: TeamOption) => nameLe(a.name, b.name)
  }

  function OptionsOf(ids: seq<int>, ms: seq<Match>): (r: seq<TeamOption>)
    ensures |r| == |ids|
    ensures forall i :: 0 <= i < |r| ==> r[i] == TeamOption(ids[i], LastName(ms, ids[i]).GetOr(""))
  {
    seq(|ids|, i requires 0 <= i < |ids| => TeamOption(ids[i], LastName(ms, ids[i]).GetOr("")))
  }

  /** The `teams` list: one option per id in `Map` insertion order, then sorted by name. */
  function TeamsOf(ms: seq<Match>, nameLe: (string, string) -> bool): (r: seq<TeamOption>)
    ensures |r| == |Dedup(SideIds(ms))|
  {
    InsertionSort(OptionsOf(Dedup(SideIds(ms)), ms), ByName(nameLe))
  }

  /** The `Map` after the matches so far: its keys in insertion order, and a name for each key. */
  ghost predicate MapAfter(ms: seq<Match>, ids: seq<int>, names: map<int, string>)
  {
    && ids == Dedup(SideIds(ms))
    && (forall k :: k in names <==> k in ids)
    && (forall k :: k in names ==> LastName(ms, k) == Some(names[k]))
  }

  /** `set.set(id, name)`: an id seen for the first time is appended to the key order. */
  lemma MapWrite(sides: seq<int>, ids: seq<int>, names: map<int, string>, id: int, name: string)
    requires ids == Dedup(sides) && (forall k :: k in names <==> k in ids)
    ensures (if id in names then ids else ids + [id]) == Dedup(sides + [id])
    ensures var ids' := if id in names then ids else ids + [id];
      forall k :: k in names[id := name] <==> k in ids'
  {
    assert (sides + [id])[..|sides|] == sides;
  }

  lemma SideIdsStep(ms: seq<Match>)
    requires ms != []
    ensures SideIds(ms) == SideIds(ms[..|ms| - 1]) + [ms[|ms| - 1].homeId] + [ms[|ms| - 1].awayId]
  {
  }

  /** One iteration of the `forEach`: the home side's entry is written, then the away side's. */
  lemma MapAfterStep(ms: seq<Match>, ids: seq<int>, names: map<int, string>, ids2: seq<int>, names2: map<int, string>)
    requires ms != [] && MapAfter(ms[..|ms| - 1], ids, names)
    requires var m := ms[|ms| - 1];
      var ids1 := if m.homeId in names then ids else ids + [m.homeId];
      var names1 := names[m.homeId := m.homeShort];
      && ids2 == (if m.awayId in names1 then ids1 else ids1 + [m.awayId])
      && names2 == names1[m.awayId := m.awayShort]
    ensures MapAfter(ms, ids2, names2)
  {
    var m := ms[|ms| - 1];
    var sides := SideIds(ms[..|ms| - 1]);
    SideIdsStep(ms);
    MapWrite(sides, ids, names, m.homeId, m.homeShort);
    var ids1 := if m.homeId in names then ids else ids + [m.homeId];
    var names1 := names[m.homeId := m.homeShort];
    MapWrite(sides + [m.homeId], ids1, names1, m.awayId, m.awayShort);
    forall k | k in names2
      ensures LastName(ms, k) == Some(names2[k])
    {
      LastNameStep(ms, k);
    }
  }

  /** The name of `k` after one more match: away side first, then home side, then the earlier name. */
  lemma LastNameStep(ms: seq<Match>, k: int)
    requires ms != []
    ensures var m := ms[|ms| - 1];
      LastName(ms, k) == if m.awayId == k then Some(m.awayShort)
                         else if m.homeId == k then Some(m.homeShort)
                         else LastName(ms[..|ms| - 1], k)
  {
  }

  /** The `teams` memo: fills a `Map` from id to short name, then lists its entries sorted by name. */
  method TeamOptions(matches: seq<Match>, nameLe: (string, string) -> bool) returns (teams: seq<TeamOption>)
    ensures teams == TeamsOf(matches, nameLe)
  {
    var ids: seq<int> := [];
    var names: map<int, string> := map[];
    for i := 0 to |matches|
      invariant MapAfter(matches[..i], ids, names)
    {
      var m := matches[i];
      assert matches[..i + 1][..i] == matches[..i];
      ghost var ids0, names0 := ids, names;
      if m.homeId !in names {
        ids := ids + [m.homeId];
      }
      names := names[m.homeId := m.homeShort];
      if m.awayId !in names {
        ids := ids + [m.awayId];
      }
      names := names[m.awayId := m.awayShort];
      MapAfterStep(matches[..i + 1], ids0, names0, ids, names);
    }
    assert matches[..|matches|] == matches;
    forall j | 0 <= j < |ids|
      ensures ids[j] in names
    {
      var k := ids[j];
      assert k in ids;
      assert k in names <==> k in ids;
    }
    var entries := seq(|ids|, i requires 0 <= i < |ids| => TeamOption(ids[i], names[ids[i]]));
    assert entries == OptionsOf(ids, matches);
    teams := InsertionSort(entries, ByName(nameLe));
  }

  lemma ByNameTotal(nameLe: (string, string) -> bool)
    requires TotalPreorder(nameLe)
    ensures TotalPreorder(ByName(nameLe))
  {
    var le := ByName(nameLe);
    forall a, b
      ensures le(a, b) || le(b, a)
    {
      assert nameLe(a.name, b.name) || nameLe(b.name, a.name);
    }
    forall a, b, c | le(a, b) && le(b, c)
      ensures le(a, c)
    {
      assert nameLe(a.name, b.name) && nameLe(b.name, c.name);
    }
  }

  /** Every option of the sorted list is one of the unsorted entries. */
  lemma TeamsOfFromEntries(ms: seq<Match>, nameLe: (string, string) -> bool, o: TeamOption)
    requires o in TeamsOf(ms, nameLe)
    ensures o in OptionsOf(Dedup(SideIds(ms)), ms)
  {
    assert o in multiset(TeamsOf(ms, nameLe));
  }

  /** Each option carries the last short name seen for its id. */
  lemma TeamsOfNames(ms: seq<Match>, nameLe: (string, string) -> bool)
    ensures forall o :: o in TeamsOf(ms, nameLe) ==> LastName(ms, o.id) == Some(o.name)
  {
    forall o | o in TeamsOf(ms, nameLe)
      ensures LastName(ms, o.id) == Some(o.name)
    {
      TeamsOfFromEntries(ms, nameLe, o);
    }
  }

  /** No team id is offered twice. */
  lemma TeamsOfDistinctIds(ms: seq<Match>, nameLe: (string, string) -> bool)
    ensures var r := TeamsOf(ms, nameLe);
      forall i, j :: 0 <= i < j < |r| ==> r[i].id != r[j].id
  {
    var entries := OptionsOf(Dedup(SideIds(ms)), ms);
    var r := TeamsOf(ms, nameLe);
    assert Distinct(entries);
    PermutationKeepsDistinct(entries, r);
    forall i, j | 0 <= i < j < |r|
      ensures r[i].id != r[j].id
    {
      TeamsOfFromEntries(ms, nameLe, r[i]);
      TeamsOfFromEntries(ms, nameLe, r[j]);
    }
  }

  /** The options are ordered by name. */
  lemma TeamsOfSorted(ms: seq<Match>, nameLe: (string, string) -> bool)
    requires TotalPreorder(nameLe)
    ensures var r := TeamsOf(ms, nameLe);
      forall i, j :: 0 <= i < j < |r| ==> nameLe(r[i].name, r[j].name)
  {
    ByNameTotal(nameLe);
    InsertionSortSorted(OptionsOf(Dedup(SideIds(ms)), ms), ByName(nameLe));
  }

  /** A team appears among the options exactly when it plays in some match. */
  lemma TeamsOfCoversPlayers(ms: seq<Match>, nameLe: (string, string) -> bool, k: int)
    ensures (exists o :: o in TeamsOf(ms, nameLe) && o.id == k)
        <==> exists m :: m in ms && (m.homeId == k || m.awayId == k)
  {
    var ids := Dedup(SideIds(ms));
    var entries := OptionsOf(ids, ms);
    var r := TeamsOf(ms, nameLe);
    SideIdsPlays(ms, k);
    if exists o :: o in r && o.id == k {
      var o :| o in r && o.id == k;
      assert o in multiset(r);
      assert o in entries;
    }
    if k in ids {
      var i :| 0 <= i < |ids| && ids[i] == k;
      assert entries[i] in multiset(entries);
      assert entries[i] in r;
    }
  }

  /** `matches.map(m => m.matchday).filter(Boolean)`: the matchdays that are neither null nor 0. */
  function Matchdays(ms: seq<Match>): (r: seq<int>)
    ensures |r| <= |ms|
    ensures forall d :: d in r ==> d != 0
  {
    if ms == [] then []
    else
      var d := ms[|ms| - 1].matchday;
      Matchdays(ms[..|ms| - 1]) + (if d.Some? && d.value != 0 then [d.value] else [])
  }

  lemma {:induction false} MatchdaysMembers(ms: seq<Match>, n: int)
    ensures n in Matchdays(ms) <==> n != 0 && exists m :: m in ms && m.matchday == Some(n)
  {
    if ms != [] {
      var front, last := ms[..|ms| - 1], ms[|ms| - 1];
      assert ms == front + [last];
      MatchdaysMembers(front, n);
      if n != 0 && exists m :: m in ms && m.matchday == Some(n) {
        var m :| m in ms && m.matchday == Some(n);
        assert m in front || m == last;
      }
      if n in Matchdays(front) {
        var m :| m in front && m.matchday == Some(n);
        assert m in ms;
      }
    }
  }

  function IntLe(a: int, b: int): bool
  {
    a <= b
  }

  /** `rounds`: the distinct truthy matchdays, sorted with `(a, b) => a - b`. */
  function Rounds(ms: seq<Match>): (r: seq<int>)
    ensures |r| <= |ms|
    ensures forall d :: d in r <==> d in Matchdays(ms)
  {
    var d := Dedup(Matchdays(ms));
    var r := InsertionSort(d, IntLe);
    SameMembers(d, r);
    DedupNoLonger(Matchdays(ms));
    r
  }

  /** The rounds are strictly ascending, and a round is offered exactly when some match has that
      non-zero matchday. */
  lemma RoundsProperties(ms: seq<Match>)
    ensures var r := Rounds(ms);
      && (forall i, j :: 0 <= i < j < |r| ==> r[i] < r[j])
      && (forall n :: n in r <==> n != 0 && exists m :: m in ms && m.matchday == Some(n))
  {
    var d := Dedup(Matchdays(ms));
    var r := Rounds(ms);
    PermutationKeepsDistinct(d, r);
    InsertionSortSorted(d, IntLe);
    forall n
      ensures n in r <==> n != 0 && exists m :: m in ms && m.matchday == Some(n)
    {
      MatchdaysMembers(ms, n);
      assert n in r <==> n in multiset(r);
      assert n in d <==> n in multiset(d);
    }
  }
}
