/** The dashboard page's data logic: which view it shows (spinner, error
    alert or statistics) and the statistics themselves: counts, the number of
    active drivers, and the five teams with the most points for the chart.
    The three lists arrive through query hooks that each report data (absent
    until loaded, read as an empty list), a loading flag and an error. */
module Dashboard {
  import opened Optional
  import opened Entities

  /** What one query hook reports. An error is kept as its message. */
  datatype Query<T> = Query(data: Option<seq<T>>, isLoading: bool, error: Option<string>)

  /** One bar of the chart. */
  datatype TeamPoints = TeamPoints(name: string, points: int)

  datatype Stats = Stats(
    totalDrivers: nat,
    totalTeams: nat,
    totalRaces: nat,
    activeDrivers: nat,
    teamPointsData: seq<TeamPoints>)

  datatype View = Spinner | Alert(text: string) | Content(stats: Stats)

  const GenericError: string := "An error occurred"

  /** A query's list, `[]` while it has none. */
  function DataOr<T>(q: Query<T>): seq<T>
  {
    if q.data.Some? then q.data.value else []
  }

  /** A present message that is not empty, so that `||` keeps it. */
  predicate HasMessage(e: Option<string>)
  {
    e.Some? && e.value != ""
  }

  /** `a?.message || b?.message || c?.message || fallback`: the first present,
      non-empty message. */
  function FirstMessage(a: Option<string>, b: Option<string>, c: Option<string>): string
  {
    if a.Some? && a.value != "" then a.value
    else if b.Some? && b.value != "" then b.value
    else if c.Some? && c.value != "" then c.value
    else GenericError
  }

  /** Number of drivers flagged active. */
  function CountActive(drivers: seq<Driver>): nat
  {
    if drivers == [] then 0 else (if drivers[0].active then 1 else 0) + CountActive(drivers[1..])
  }

  /** Active drivers are some of the drivers; all of them exactly when every
      driver is active, none exactly when no driver is. */
  lemma {:induction false} CountActiveBounds(drivers: seq<Driver>)
    ensures CountActive(drivers) <= |drivers|
    ensures CountActive(drivers) == |drivers| <==> forall i :: 0 <= i < |drivers| ==> drivers[i].active
    ensures CountActive(drivers) == 0 <==> forall i :: 0 <= i < |drivers| ==> !drivers[i].active
  {
    if drivers != [] {
      CountActiveBounds(drivers[1..]);
      assert forall i :: 1 <= i < |drivers| ==> drivers[i] == drivers[1..][i - 1];
    }
  }

  function ToTeamPoints(teams: seq<Team>): (entries: seq<TeamPoints>)
    ensures |entries| == |teams|
    ensures forall i :: 0 <= i < |teams| ==> entries[i] == TeamPoints(teams[i].name, teams[i].points)
  {
    seq(|teams|, i requires 0 <= i < |teams| => TeamPoints(teams[i].name, teams[i].points))
  }

  predicate NonIncreasing(entries: seq<TeamPoints>)
  {
    forall i, j :: 0 <= i < j < |entries| ==> entries[i].points >= entries[j].points
  }

  /** Puts `x` after every entry with more points and before the first with
      at most as many: `x` comes from earlier in the input than `sorted`, so
      this keeps ties in input order. */
  function Insert(x: TeamPoints, sorted: seq<TeamPoints>): seq<TeamPoints>
  {
    if sorted == [] then [x]
    else if sorted[0].points > x.points then [sorted[0]] + Insert(x, sorted[1..])
    else [x] + sorted
  }

  /** `sort((a, b) => b.points - a.points)`: descending by points, ties in
      their original order. */
  function SortByPoints(entries: seq<TeamPoints>): seq<TeamPoints>
  {
    if entries == [] then [] else Insert(entries[0], SortByPoints(entries[1..]))
  }

  /** Every entry has at most `bound` points. */
  predicate AtMost(entries: seq<TeamPoints>, bound: int)
  {
    forall i :: 0 <= i < |entries| ==> entries[i].points <= bound
  }

  lemma {:induction false} InsertAtMost(x: TeamPoints, sorted: seq<TeamPoints>, bound: int)
    requires AtMost(sorted, bound) && x.points <= bound
    ensures AtMost(Insert(x, sorted), bound)
  {
    if sorted != [] && sorted[0].points > x.points {
      InsertAtMost(x, sorted[1..], bound);
    }
  }

  lemma ConsSorted(head: TeamPoints, rest: seq<TeamPoints>)
    requires NonIncreasing(rest) && AtMost(rest, head.points)
    ensures NonIncreasing([head] + rest)
  {
    var s := [head] + rest;
    forall i, j | 0 <= i < j < |s| ensures s[i].points >= s[j].points {
      assert s[j] == rest[j - 1];
      if i > 0 {
        assert s[i] == rest[i - 1];
      }
    }
  }

  lemma {:induction false} InsertSorted(x: TeamPoints, sorted: seq<TeamPoints>)
    requires NonIncreasing(sorted)
    ensures NonIncreasing(Insert(x, sorted))
  {
    if sorted == [] {
    } else if sorted[0].points > x.points {
      InsertSorted(x, sorted[1..]);
      InsertAtMost(x, sorted[1..], sorted[0].points);
      ConsSorted(sorted[0], Insert(x, sorted[1..]));
    } else {
      ConsSorted(x, sorted);
    }
  }

  lemma {:induction false} InsertKeeps(x: TeamPoints, sorted: seq<TeamPoints>)
    ensures multiset(Insert(x, sorted)) == multiset(sorted) + multiset{x}
  {
    if sorted != [] && sorted[0].points > x.points {
      InsertKeeps(x, sorted[1..]);
      assert sorted == [sorted[0]] + sorted[1..];
    }
  }

  /** The sort orders by points and keeps every entry exactly once. */
  lemma {:induction false} SortByPointsCorrect(entries: seq<TeamPoints>)
    ensures NonIncreasing(SortByPoints(entries))
    ensures multiset(SortByPoints(entries)) == multiset(entries)
  {
    if entries != [] {
      SortByPointsCorrect(entries[1..]);
      InsertSorted(entries[0], SortByPoints(entries[1..]));
      InsertKeeps(entries[0], SortByPoints(entries[1..]));
      assert entries == [entries[0]] + entries[1..];
    }
  }

  /** The entries with exactly `points` points, in order. */
  function WithPoints(entries: seq<TeamPoints>, points: int): seq<TeamPoints>
  {
    if entries == [] then []
    else (if entries[0].points == points then [entries[0]] else []) + WithPoints(entries[1..], points)
  }

  lemma {:induction false} InsertStable(x: TeamPoints, sorted: seq<TeamPoints>, points: int)
    ensures WithPoints(Insert(x, sorted), points) == (if x.points == points then [x] else []) + WithPoints(sorted, points)
  {
    if sorted != [] && sorted[0].points > x.points {
      InsertStable(x, sorted[1..], points);
      var s := [sorted[0]] + Insert(x, sorted[1..]);
      assert s[0] == sorted[0] && s[1..] == Insert(x, sorted[1..]);
    } else if sorted != [] {
      var s := [x] + sorted;
      assert s[0] == x && s[1..] == sorted;
    }
  }

  /** The sort is stable: entries with equal points keep their input order. */
  lemma {:induction false} SortByPointsStable(entries: seq<TeamPoints>, points: int)
    ensures WithPoints(SortByPoints(entries), points) == WithPoints(entries, points)
  {
    if entries != [] {
      SortByPointsStable(entries[1..], points);
      InsertStable(entries[0], SortByPoints(entries[1..]), points);
    }
  }

  lemma SortedLength(entries: seq<TeamPoints>)
    ensures |SortByPoints(entries)| == |entries|
  {
    SortByPointsCorrect(entries);
    assert |multiset(SortByPoints(entries))| == |multiset(entries)|;
  }

  /** The first five entries by descending points. */
  function TopFive(entries: seq<TeamPoints>): seq<TeamPoints>
  {
    var sorted := SortByPoints(entries);
    SortedLength(entries);
    sorted[..if |sorted| < 5 then |sorted| else 5]
  }

  /** The chart data: the teams as (name, points) bars, top five. */
  function TeamPointsData(teams: seq<Team>): seq<TeamPoints>
  {
    TopFive(ToTeamPoints(teams))
  }

  /** Cutting a sorted list: the prefix is sorted, and what is cut off is
      the rest of the list, none of it above the prefix's last entry. */
  lemma SortedPrefix(sorted: seq<TeamPoints>, n: nat)
    requires NonIncreasing(sorted) && 0 < n <= |sorted|
    ensures NonIncreasing(sorted[..n])
    ensures multiset(sorted) - multiset(sorted[..n]) == multiset(sorted[n..])
    ensures forall e: TeamPoints :: e in multiset(sorted[n..]) ==> e.points <= sorted[n - 1].points
  {
    assert sorted == sorted[..n] + sorted[n..];
    forall e: TeamPoints | e in multiset(sorted[n..]) ensures e.points <= sorted[n - 1].points {
      var m :| 0 <= m < |sorted[n..]| && sorted[n..][m] == e;
      assert sorted[n + m] == e;
    }
  }

  /** The top five: min(5, n) entries, highest points first, each one of the
      input entries (with multiplicity), and every entry left out has no more
      points than the last one kept. */
  lemma TopFiveCorrect(entries: seq<TeamPoints>)
    ensures |TopFive(entries)| == if |entries| < 5 then |entries| else 5
    ensures NonIncreasing(TopFive(entries))
    ensures multiset(TopFive(entries)) <= multiset(entries)
    ensures entries != [] ==> forall e: TeamPoints :: e in multiset(entries) - multiset(TopFive(entries)) ==>
      e.points <= TopFive(entries)[|TopFive(entries)| - 1].points
  {
    var sorted := SortByPoints(entries);
    SortByPointsCorrect(entries);
    SortedLength(entries);
    var n := if |sorted| < 5 then |sorted| else 5;
    var top := sorted[..n];
    assert TopFive(entries) == top;
    assert sorted == top + sorted[n..];
    if n > 0 {
      SortedPrefix(sorted, n);
      assert top[n - 1] == sorted[n - 1];
    }
  }

  /** The chart shows min(5, |teams|) bars, highest points first; its bars
      are the (name, points) pairs of distinct teams, and every team left out
      has no more points than the smallest bar shown. */
  lemma TeamPointsDataCorrect(teams: seq<Team>)
    ensures |TeamPointsData(teams)| == if |teams| < 5 then |teams| else 5
    ensures NonIncreasing(TeamPointsData(teams))
    ensures multiset(TeamPointsData(teams)) <= multiset(ToTeamPoints(teams))
    ensures teams != [] ==> forall e: TeamPoints :: e in multiset(ToTeamPoints(teams)) - multiset(TeamPointsData(teams)) ==>
      e.points <= TeamPointsData(teams)[|TeamPointsData(teams)| - 1].points
  {
    TopFiveCorrect(ToTeamPoints(teams));
  }

  function ComputeStats(drivers: seq<Driver>, teams: seq<Team>, races: seq<Race>): (stats: Stats)
  {
    Stats(|drivers|, |teams|, |races|, CountActive(drivers), TeamPointsData(teams))
  }

  /** The view of the dashboard: any loading query shows the spinner, before
      any error is considered; then any error shows an alert; otherwise the
      statistics of the three lists. */
  function DashboardView(drivers: Query<Driver>, teams: Query<Team>, races: Query<Race>): View
  {
    if drivers.isLoading || teams.isLoading || races.isLoading then Spinner
    else if drivers.error.Some? || teams.error.Some? || races.error.Some? then
      Alert(FirstMessage(drivers.error, teams.error, races.error))
    else Content(ComputeStats(DataOr(drivers), DataOr(teams), DataOr(races)))
  }

  /** Loading wins over errors; an error, whatever its message, wins over
      data; the alert text is the first non-empty message in the order
      drivers, teams, races, else the generic one, so never empty. */
  lemma ViewPrecedence(drivers: Query<Driver>, teams: Query<Team>, races: Query<Race>)
    ensures DashboardView(drivers, teams, races).Spinner? <==> drivers.isLoading || teams.isLoading || races.isLoading
    ensures DashboardView(drivers, teams, races).Alert? <==>
      !(drivers.isLoading || teams.isLoading || races.isLoading)
      && (drivers.error.Some? || teams.error.Some? || races.error.Some?)
    ensures DashboardView(drivers, teams, races).Alert? ==> DashboardView(drivers, teams, races).text != ""
    ensures DashboardView(drivers, teams, races).Alert? && HasMessage(drivers.error) ==>
      DashboardView(drivers, teams, races).text == drivers.error.value
    ensures DashboardView(drivers, teams, races).Alert? && !HasMessage(drivers.error) && HasMessage(teams.error) ==>
      DashboardView(drivers, teams, races).text == teams.error.value
    ensures (DashboardView(drivers, teams, races).Alert? && !HasMessage(drivers.error) && !HasMessage(teams.error)
             && HasMessage(races.error)) ==>
      DashboardView(drivers, teams, races).text == races.error.value
    ensures (DashboardView(drivers, teams, races).Alert? && !HasMessage(drivers.error) && !HasMessage(teams.error)
             && !HasMessage(races.error)) ==>
      DashboardView(drivers, teams, races).text == GenericError
  {
  }

  /** The statistics: counts are list lengths (an absent list counts as
      empty), active drivers never exceed drivers, and the chart has at most
      five bars, each the bar of a different team. */
  lemma StatsCorrect(drivers: Query<Driver>, teams: Query<Team>, races: Query<Race>)
    requires DashboardView(drivers, teams, races).Content?
    ensures var stats := DashboardView(drivers, teams, races).stats;
      && stats.totalDrivers == |DataOr(drivers)|
      && stats.totalTeams == |DataOr(teams)|
      && stats.totalRaces == |DataOr(races)|
      && stats.activeDrivers <= stats.totalDrivers
      && |stats.teamPointsData| <= 5
      && |stats.teamPointsData| <= stats.totalTeams
      && multiset(stats.teamPointsData) <= multiset(ToTeamPoints(DataOr(teams)))
  {
    CountActiveBounds(DataOr(drivers));
    TeamPointsDataCorrect(DataOr(teams));
  }
}
