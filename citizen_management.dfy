/**
  The zonal admin's citizen overview of components/admin/citizen-management.tsx:
  the zone leaderboard, the searchable, level-filtered and sortable citizen
  list, and the two totals. Dates are milliseconds since the epoch.
 */
module CitizenManagement {

  import opened Text
  import opened Seqs

  datatype CitizenRecord = CitizenRecord(
    id: string,
    name: string,
    email: string,
    points: int,
    level: nat,
    reportsSubmitted: int,
    reportsResolved: int,
    badges: seq<string>,
    joinedDate: int,
    lastActive: int)

  /** The zone's citizens as declared, before the load-time sort reorders the array. */
  const MockZoneCitizens: seq<CitizenRecord> := [
    CitizenRecord("1", "Rahul Kumar", "rahul.kumar@email.com", 450, 3, 12, 8,
      ["first_report", "weekly_streak"], 1705276800000, 1705708800000),
    CitizenRecord("2", "Priya Singh", "priya.singh@email.com", 680, 4, 18, 15,
      ["first_report", "photo_reporter", "weekly_streak"], 1702166400000, 1705622400000),
    CitizenRecord("3", "Amit Sharma", "amit.sharma@email.com", 320, 2, 8, 5,
      ["first_report"], 1704672000000, 1705536000000),
    CitizenRecord("4", "Sunita Devi", "sunita.devi@email.com", 890, 4, 25, 22,
      ["first_report", "photo_reporter", "weekly_streak", "monthly_champion"], 1700438400000, 1705708800000),
    CitizenRecord("5", "Rajesh Gupta", "rajesh.gupta@email.com", 180, 2, 5, 3,
      ["first_report"], 1705017600000, 1705449600000)
  ]

  function Points(c: CitizenRecord): int {
    c.points
  }

  /**
    The module array after `mockZoneCitizens.sort((a, b) => b.points - a.points)`: the sort works
    in place, so every later pipeline over the array starts from this order.
   */
  function ZoneCitizens(): seq<CitizenRecord> {
    SortDesc(MockZoneCitizens, Points)
  }

  // ---------------------------------------------------------------- leaderboard

  datatype LeaderboardRow = LeaderboardRow(rank: int, name: string, points: int, level: int, zone: string)

  /** `.map((citizen, index) => ({ rank: index + 1, name, points, level, zone: "Ranchi" }))`. */
  function Rows(sorted: seq<CitizenRecord>): (r: seq<LeaderboardRow>)
    ensures |r| == |sorted|
  {
    seq(|sorted|, i requires 0 <= i < |sorted| =>
      LeaderboardRow(i + 1, sorted[i].name, sorted[i].points, sorted[i].level, "Ranchi"))
  }

  /** `leaderboardData` over the given citizens. */
  function LeaderboardData(citizens: seq<CitizenRecord>): seq<LeaderboardRow> {
    Rows(SortDesc(citizens, Points))
  }

  /**
    One row per citizen, ranked 1..n in order of non-increasing points, each row carrying zone
    "Ranchi".
   */
  lemma LeaderboardDataOrder(citizens: seq<CitizenRecord>)
    ensures var r := LeaderboardData(citizens);
      && |r| == |citizens|
      && (forall i :: 0 <= i < |r| ==> r[i].rank == i + 1 && r[i].zone == "Ranchi")
      && (forall i, j :: 0 <= i < j < |r| ==> r[i].points >= r[j].points)
  {
    var sorted := SortDesc(citizens, Points);
    var r := LeaderboardData(citizens);
    assert SortedDesc(sorted, Points);
    forall i, j | 0 <= i < j < |r| ensures r[i].points >= r[j].points {
      assert Points(sorted[i]) >= Points(sorted[j]);
    }
  }

  /** The row shows the citizen's name, points and level. */
  predicate Copies(row: LeaderboardRow, c: CitizenRecord) {
    row.name == c.name && row.points == c.points && row.level == c.level
  }

  /** Each row copies a citizen from the input. */
  lemma LeaderboardRowsFromCitizens(citizens: seq<CitizenRecord>)
    ensures forall i :: 0 <= i < |LeaderboardData(citizens)| ==>
      exists c :: c in citizens && Copies(LeaderboardData(citizens)[i], c)
  {
    var sorted := SortDesc(citizens, Points);
    var r := LeaderboardData(citizens);
    forall i | 0 <= i < |r|
      ensures exists c :: c in citizens && Copies(r[i], c)
    {
      var c := sorted[i];
      assert c in multiset(sorted);
      assert c in multiset(citizens);
      assert c in citizens;
      assert Copies(r[i], c);
    }
    assert forall i :: 0 <= i < |r| ==> exists c :: c in citizens && Copies(r[i], c);
    assert |r| == |LeaderboardData(citizens)|;
    assert forall i :: 0 <= i < |r| ==> r[i] == LeaderboardData(citizens)[i];
  }

  /** Every citizen of the input gets a row. */
  lemma CitizensGetRows(citizens: seq<CitizenRecord>)
    ensures var r := LeaderboardData(citizens);
      forall c :: c in citizens ==> exists i :: 0 <= i < |r| && Copies(r[i], c)
  {
    var sorted := SortDesc(citizens, Points);
    var r := LeaderboardData(citizens);
    forall c | c in citizens
      ensures exists i :: 0 <= i < |r| && Copies(r[i], c)
    {
      assert c in multiset(citizens);
      var i :| 0 <= i < |sorted| && sorted[i] == c;
      assert Copies(r[i], c);
    }
  }

  // ---------------------------------------------------------------- the citizen list

  /** The term occurs, ignoring case, in the name or the e-mail. */
  predicate MatchesSearch(c: CitizenRecord, term: string) {
    IncludesIgnoreCase(c.name, term) || IncludesIgnoreCase(c.email, term)
  }

  /** `levelFilter === "all" || citizen.level.toString() === levelFilter`. */
  predicate MatchesLevel(c: CitizenRecord, levelFilter: string) {
    levelFilter == "all" || NatToString(c.level) == levelFilter
  }

  predicate Shown(c: CitizenRecord, term: string, levelFilter: string) {
    MatchesSearch(c, term) && MatchesLevel(c, levelFilter)
  }

  function ShownBy(term: string, levelFilter: string): CitizenRecord -> bool {
    (c: CitizenRecord) => Shown(c, term, levelFilter)
  }

  /** The key the comparator for `sortBy` orders by, descending; any other value compares all pairs equal. */
  function SortKey(sortBy: string): CitizenRecord -> int {
    if sortBy == "points" then (c: CitizenRecord) => c.points
    else if sortBy == "reports" then (c: CitizenRecord) => c.reportsSubmitted
    else if sortBy == "resolved" then (c: CitizenRecord) => c.reportsResolved
    else if sortBy == "recent" then (c: CitizenRecord) => c.lastActive
    else (c: CitizenRecord) => 0
  }

  /** `filteredCitizens` over the given array. */
  function FilteredCitizens(citizens: seq<CitizenRecord>, term: string, levelFilter: string, sortBy: string): seq<CitizenRecord> {
    SortDesc(Filter(citizens, ShownBy(term, levelFilter)), SortKey(sortBy))
  }

  /**
    The list holds exactly the citizens that match the search and the level filter, each as often
    as the array does, in non-increasing order of the chosen key, and citizens with equal keys in
    array order.
   */
  lemma FilteredCitizensSpec(citizens: seq<CitizenRecord>, term: string, levelFilter: string, sortBy: string,
                             x: CitizenRecord, k: int)
    ensures var r := FilteredCitizens(citizens, term, levelFilter, sortBy);
      && multiset(r)[x] == (if Shown(x, term, levelFilter) then multiset(citizens)[x] else 0)
      && (forall i, j :: 0 <= i < j < |r| ==> SortKey(sortBy)(r[i]) >= SortKey(sortBy)(r[j]))
      && Filter(r, KeyIs(SortKey(sortBy), k)) ==
         Filter(Filter(citizens, ShownBy(term, levelFilter)), KeyIs(SortKey(sortBy), k))
  {
    FilterCount(citizens, ShownBy(term, levelFilter), x);
    SortDescStable(Filter(citizens, ShownBy(term, levelFilter)), SortKey(sortBy), k);
  }

  /** An unrecognised sort key keeps the filtered array's own order. */
  lemma UnknownSortKeepsOrder(citizens: seq<CitizenRecord>, term: string, levelFilter: string, sortBy: string)
    requires sortBy !in ["points", "reports", "resolved", "recent"]
    ensures FilteredCitizens(citizens, term, levelFilter, sortBy) == Filter(citizens, ShownBy(term, levelFilter))
  {
    ConstantKeyKeepsOrder(Filter(citizens, ShownBy(term, levelFilter)), SortKey(sortBy), 0);
  }

  /**
    A level filter other than "all" selects by the decimal form of the level: the filter "n" for a
    level n picks exactly the citizens at level n, and a filter that is not such a form (a leading
    zero, a letter) picks nobody.
   */
  lemma LevelFilterSpec(c: CitizenRecord, n: nat, levelFilter: string)
    ensures MatchesLevel(c, NatToString(n)) <==> c.level == n
    ensures levelFilter != "all" && (exists i :: 0 <= i < |levelFilter| && !IsDigit(levelFilter[i])) ==>
      !MatchesLevel(c, levelFilter)
    ensures |levelFilter| > 1 && levelFilter[0] == '0' ==> !MatchesLevel(c, levelFilter)
  {
    if NatToString(c.level) == NatToString(n) {
      NatToStringInjective(c.level, n);
    }
  }

  // ---------------------------------------------------------------- totals

  function ReportsSubmitted(c: CitizenRecord): int {
    c.reportsSubmitted
  }

  /** `totalCitizens`: as many as the leaderboard has rows, and 0 only for an empty zone. */
  function TotalCitizens(citizens: seq<CitizenRecord>): (n: nat)
    ensures n == |LeaderboardData(citizens)|
    ensures n == 0 <==> citizens == []
  {
    |citizens|
  }

  /** `totalReports`: the sum of reportsSubmitted. */
  function TotalReports(citizens: seq<CitizenRecord>): int {
    Sum(citizens, ReportsSubmitted)
  }

  /**
    Totals add up over any split of the array, the sum of reports is never negative when no
    citizen's count is, and the load-time sort changes neither total.
   */
  lemma {:induction false} TotalsSpec(a: seq<CitizenRecord>, b: seq<CitizenRecord>)
    ensures TotalCitizens(a + b) == TotalCitizens(a) + TotalCitizens(b)
    ensures TotalReports(a + b) == TotalReports(a) + TotalReports(b)
    ensures (forall i :: 0 <= i < |a| ==> a[i].reportsSubmitted >= 0) ==> TotalReports(a) >= 0
    ensures TotalCitizens(SortDesc(a, Points)) == TotalCitizens(a)
    ensures TotalReports(SortDesc(a, Points)) == TotalReports(a)
  {
    SumConcat(a, b, ReportsSubmitted);
    if forall i :: 0 <= i < |a| ==> a[i].reportsSubmitted >= 0 {
      SumNonNegative(a, ReportsSubmitted);
    }
    SumPermutation(SortDesc(a, Points), a, ReportsSubmitted);
  }

  /** The zone's figures: five citizens who submitted 68 reports in all. */
  lemma MockTotals()
    ensures TotalCitizens(ZoneCitizens()) == 5
    ensures TotalReports(ZoneCitizens()) == 68
  {
    TotalsSpec(MockZoneCitizens, []);
    var s := MockZoneCitizens;
    assert s[1..][1..][1..][1..][1..] == [];
    assert TotalReports(MockZoneCitizens) == 68;
  }
}
