/**
  GamificationService of lib/gamification.ts: the level of a number of points,
  the progress data shown to a citizen, the points an event is worth, the
  badges a citizen newly qualifies for and the leaderboard. All static and
  stateless.
 */
module Gamification {

  import opened JsValues
  import opened Types
  import opened Constants
  import opened Seqs

  datatype LevelInfo = LevelInfo(level: int, levelName: string)

  /** `CITIZEN_LEVELS.find(level => points >= level.minPoints && points <= level.maxPoints)`. */
  function CurrentTier(points: int): Option<LevelTier> {
    Find(CitizenLevels, HoldsPoints(points))
  }

  function HoldsPoints(points: int): LevelTier -> bool {
    (t: LevelTier) => InTier(t, points)
  }

  function TierLevel(t: Option<LevelTier>): Option<int> {
    if t.Some? then Some(t.value.level) else None
  }

  function TierName(t: Option<LevelTier>): Option<string> {
    if t.Some? then Some(t.value.name) else None
  }

  function TierMin(t: Option<LevelTier>): Option<int> {
    if t.Some? then Some(t.value.minPoints) else None
  }

  /** `calculateLevel`: the tier's level and name, or level 1 "Newcomer" when no tier holds the points. */
  function CalculateLevel(points: int): LevelInfo {
    var tier := CurrentTier(points);
    LevelInfo(OrNumber(TierLevel(tier), 1), OrString(TierName(tier), "Newcomer"))
  }

  /** The tier `find` returns for non-negative points is the unique one holding them; for negative points there is none. */
  lemma CurrentTierIs(points: int)
    ensures points >= 0 ==> CurrentTier(points) == Some(CitizenLevels[TierIndex(points)])
    ensures points < 0 ==> CurrentTier(points) == None
  {
    ExactlyOneTier(points);
    var r := FindIndex(CitizenLevels, HoldsPoints(points));
    if points >= 0 {
      assert HoldsPoints(points)(CitizenLevels[TierIndex(points)]);
      assert r.Some? && r.value == TierIndex(points);
    } else {
      assert r.None?;
    }
  }

  /** calculateLevel returns the unique tier holding the points, and falls back to level 1 "Newcomer" otherwise. */
  lemma CalculateLevelSpec(points: int)
    ensures points >= 0 ==>
      CalculateLevel(points) == LevelInfo(TierIndex(points) + 1, CitizenLevels[TierIndex(points)].name)
    ensures points >= 0 ==> InTier(CitizenLevels[CalculateLevel(points).level - 1], points)
    ensures points < 0 ==> CalculateLevel(points) == LevelInfo(1, "Newcomer")
  {
    CurrentTierIs(points);
    TiersContiguous();
  }

  /** The tier boundaries: 99 is level 1, 100 level 2, 999 level 4, 1000 level 5, 2000 and above level 6. */
  lemma CalculateLevelBoundaries(p: int)
    requires p >= 2000
    ensures CalculateLevel(0).level == 1 && CalculateLevel(99).level == 1
    ensures CalculateLevel(100).level == 2 && CalculateLevel(999).level == 4
    ensures CalculateLevel(1000).level == 5 && CalculateLevel(1999).level == 5
    ensures CalculateLevel(p) == LevelInfo(6, "Legend")
  {
    CalculateLevelSpec(0);
    CalculateLevelSpec(99);
    CalculateLevelSpec(100);
    CalculateLevelSpec(999);
    CalculateLevelSpec(1000);
    CalculateLevelSpec(1999);
    CalculateLevelSpec(p);
  }

  /** The level alone: one past the tier index for non-negative points, 1 otherwise. */
  lemma LevelNumber(points: int)
    ensures CalculateLevel(points).level == if points < 0 then 1 else TierIndex(points) + 1
  {
    CalculateLevelSpec(points);
  }

  /** More points never mean a lower level. */
  lemma CalculateLevelMonotonic(p: int, q: int)
    requires p <= q
    ensures CalculateLevel(p).level <= CalculateLevel(q).level
  {
    LevelNumber(p);
    LevelNumber(q);
    if p >= 0 {
      TierIndexMonotonic(p, q);
    }
  }

  lemma TierIndexMonotonic(p: nat, q: nat)
    requires p <= q
    ensures TierIndex(p) <= TierIndex(q)
  {
  }

  // ---------------------------------------------------------------- progress data

  /** `getGamificationData`. */
  function GetGamificationData(user: User): GamificationData {
    var points := OrNumber(user.points, 0);
    var current := CurrentTier(points);
    var level := OrNumber(TierLevel(current), 1);
    var next := Find(CitizenLevels, HasLevel(level + 1));
    GamificationData(
      points,
      level,
      OrString(TierName(current), "Newcomer"),
      [],
      OrNumber(TierMin(next), points),
      OrNumber(TierMin(current), 0))
  }

  function HasLevel(n: int): LevelTier -> bool {
    (t: LevelTier) => t.level == n
  }

  /** The tier after the one at index i, looked up by level number, if there is one. */
  lemma NextTierIs(i: nat)
    requires i < |CitizenLevels|
    ensures i + 1 < |CitizenLevels| ==> Find(CitizenLevels, HasLevel(i + 2)) == Some(CitizenLevels[i + 1])
    ensures i + 1 == |CitizenLevels| ==> Find(CitizenLevels, HasLevel(i + 2)) == None
  {
    TiersContiguous();
    var r := FindIndex(CitizenLevels, HasLevel(i + 2));
    if i + 1 < |CitizenLevels| {
      assert HasLevel(i + 2)(CitizenLevels[i + 1]);
      assert r.Some? && r.value == i + 1;
    } else {
      assert r.None?;
    }
  }

  /**
    The progress data: missing points read as 0, level and name are calculateLevel's,
    currentLevelPoints is the tier's floor, nextLevelPoints the next tier's floor (the
    points themselves at the top tier), and badges are always empty.
   */
  lemma GamificationDataSpec(user: User)
    ensures var d := GetGamificationData(user);
      && (user.points.None? ==> d.points == 0)
      && (user.points.Some? ==> d.points == user.points.value)
      && LevelInfo(d.level, d.levelName) == CalculateLevel(d.points)
      && d.badges == []
      && (d.points >= 0 ==> d.level == TierIndex(d.points) + 1)
      && (d.points >= 0 ==> d.currentLevelPoints == CitizenLevels[TierIndex(d.points)].minPoints)
      && (d.points >= 0 && TierIndex(d.points) < 5 ==>
            d.nextLevelPoints == CitizenLevels[TierIndex(d.points) + 1].minPoints)
      && (d.level == 6 ==> d.nextLevelPoints == d.points)
      && (d.points < 0 ==> d.currentLevelPoints == 0 && d.nextLevelPoints == 100)
      && (d.points >= 0 ==> d.currentLevelPoints <= d.points)
      && (d.points >= 0 && d.level < 6 ==> d.points < d.nextLevelPoints)
  {
    GamificationDataLevel(user);
    GamificationDataThresholds(user);
  }

  /** The points, level and name part of GamificationDataSpec. */
  lemma GamificationDataLevel(user: User)
    ensures var d := GetGamificationData(user);
      && d.points == OrNumber(user.points, 0)
      && LevelInfo(d.level, d.levelName) == CalculateLevel(d.points)
      && d.badges == []
      && (d.points >= 0 ==> d.level == TierIndex(d.points) + 1)
      && (d.points < 0 ==> d.level == 1)
  {
    var points := OrNumber(user.points, 0);
    CurrentTierIs(points);
    CalculateLevelSpec(points);
  }

  /** The threshold part of GamificationDataSpec. */
  lemma GamificationDataThresholds(user: User)
    ensures var d := GetGamificationData(user);
      && (d.points >= 0 ==> d.currentLevelPoints == CitizenLevels[TierIndex(d.points)].minPoints)
      && (d.points >= 0 && TierIndex(d.points) < 5 ==>
            d.nextLevelPoints == CitizenLevels[TierIndex(d.points) + 1].minPoints)
      && (d.points >= 0 && TierIndex(d.points) == 5 ==> d.nextLevelPoints == d.points)
      && (d.points < 0 ==> d.currentLevelPoints == 0 && d.nextLevelPoints == 100)
  {
    var points := OrNumber(user.points, 0);
    CurrentFloor(points);
    NextFloor(points);
  }

  /** The floor of the current tier, 0 when no tier holds the points. */
  lemma CurrentFloor(points: int)
    ensures OrNumber(TierMin(CurrentTier(points)), 0) ==
      if points >= 0 then CitizenLevels[TierIndex(points)].minPoints else 0
  {
    CurrentTierIs(points);
  }

  /** The floor of the tier one level up, the points themselves at the top tier. */
  lemma NextFloor(points: int)
    ensures var level := OrNumber(TierLevel(CurrentTier(points)), 1);
      OrNumber(TierMin(Find(CitizenLevels, HasLevel(level + 1))), points) ==
        if points < 0 then 100
        else if TierIndex(points) < 5 then CitizenLevels[TierIndex(points) + 1].minPoints
        else points
  {
    CurrentLevel(points);
    if points >= 0 {
      NextFloorAt(TierIndex(points), points);
    } else {
      NextFloorAt(0, points);
    }
  }

  /** The level of the current tier, 1 when no tier holds the points. */
  lemma CurrentLevel(points: int)
    ensures OrNumber(TierLevel(CurrentTier(points)), 1) == if points < 0 then 1 else TierIndex(points) + 1
  {
    CurrentTierIs(points);
  }

  /** The floor of the tier after index i, or the fallback after the last one. */
  lemma NextFloorAt(i: nat, fallback: int)
    requires i < |CitizenLevels|
    ensures OrNumber(TierMin(Find(CitizenLevels, HasLevel(i + 2))), fallback) ==
      if i + 1 < |CitizenLevels| then CitizenLevels[i + 1].minPoints else fallback
  {
    NextTierIs(i);
  }

  // ---------------------------------------------------------------- points

  /** `awardPoints`: the value of the event; the level-up computation it performs is discarded. */
  function AwardPoints(user: User, action: PointAction): nat {
    var before := OrNumber(user.points, 0);
    var oldLevel := CalculateLevel(before);
    var newLevel := CalculateLevel(before + PointValue(action));
    PointValue(action)
  }

  /** The award depends on the event alone, never on the user: 50 for ISSUE_RESOLVED. */
  lemma AwardPointsIgnoresUser(u: User, v: User, action: PointAction)
    ensures AwardPoints(u, action) == AwardPoints(v, action) == PointValue(action)
    ensures AwardPoints(u, IssueResolved) == 50
  {
  }

  /** Adding an award to a user's points never lowers the level, so a level change is always an increase. */
  lemma AwardNeverLowersLevel(u: User, action: PointAction)
    ensures var before := OrNumber(u.points, 0);
      CalculateLevel(before).level <= CalculateLevel(before + AwardPoints(u, action)).level
  {
    var before := OrNumber(u.points, 0);
    CalculateLevelMonotonic(before, before + AwardPoints(u, action));
  }

  // ---------------------------------------------------------------- badges

  /** The four badges in the order `checkBadgeEligibility` tests them. */
  const BadgeOrder: seq<string> := ["first_report", "photo_reporter", "resolution_tracker", "community_leader"]

  /** The threshold each badge requires. */
  predicate Qualifies(badge: string, points: int, reportCount: int, resolvedCount: int) {
    if badge == "first_report" then reportCount >= 1
    else if badge == "photo_reporter" then reportCount >= 10
    else if badge == "resolution_tracker" then resolvedCount >= 10
    else if badge == "community_leader" then points >= 1000
    else false
  }

  /** A badge of the fixed order is newly earned when its threshold holds and the user does not hold it yet. */
  function NewlyEarned(user: User, reportCount: int, resolvedCount: int): string -> bool {
    b => Qualifies(b, OrNumber(user.points, 0), reportCount, resolvedCount) && b !in OrEmpty(user.badges)
  }

  /** `checkBadgeEligibility`. */
  function CheckBadgeEligibility(user: User, reportCount: int, resolvedCount: int): seq<string> {
    var held := OrEmpty(user.badges);
    var points := OrNumber(user.points, 0);
    (if reportCount >= 1 && "first_report" !in held then ["first_report"] else [])
    + (if reportCount >= 10 && "photo_reporter" !in held then ["photo_reporter"] else [])
    + (if resolvedCount >= 10 && "resolution_tracker" !in held then ["resolution_tracker"] else [])
    + (if points >= 1000 && "community_leader" !in held then ["community_leader"] else [])
  }

  /** The newly earned badges are exactly those of the fixed order whose threshold holds and that the user does not already hold, in that order. */
  lemma {:induction false} BadgeEligibilitySpec(user: User, reportCount: int, resolvedCount: int)
    ensures CheckBadgeEligibility(user, reportCount, resolvedCount)
         == Filter(BadgeOrder, NewlyEarned(user, reportCount, resolvedCount))
  {
    var p := NewlyEarned(user, reportCount, resolvedCount);
    var a, b, c, d := "first_report", "photo_reporter", "resolution_tracker", "community_leader";
    var s3: seq<string> := [d];
    var s2: seq<string> := [c, d];
    var s1: seq<string> := [b, c, d];
    assert s3[1..] == [];
    assert Filter(s3, p) == (if p(d) then [d] else []);
    assert s2[1..] == s3;
    assert Filter(s2, p) == (if p(c) then [c] else []) + Filter(s3, p);
    assert s1[1..] == s2;
    assert Filter(s1, p) == (if p(b) then [b] else []) + Filter(s2, p);
    assert BadgeOrder[1..] == s1;
    assert Filter(BadgeOrder, p) == (if p(a) then [a] else []) + Filter(s1, p);
    EligibilityByBadge(user, reportCount, resolvedCount);
  }

  lemma EligibilityByBadge(user: User, reportCount: int, resolvedCount: int)
    ensures var p := NewlyEarned(user, reportCount, resolvedCount);
      var a, b, c, d := "first_report", "photo_reporter", "resolution_tracker", "community_leader";
      CheckBadgeEligibility(user, reportCount, resolvedCount)
        == (if p(a) then [a] else []) + ((if p(b) then [b] else []) + ((if p(c) then [c] else []) + (if p(d) then [d] else [])))
  {
  }

  /** No badge is returned that the user already holds, and none is returned twice. */
  lemma BadgeEligibilityFresh(user: User, reportCount: int, resolvedCount: int)
    ensures var r := CheckBadgeEligibility(user, reportCount, resolvedCount);
      && (forall i :: 0 <= i < |r| ==> r[i] !in OrEmpty(user.badges) && r[i] in BadgeOrder)
      && Distinct(r)
  {
    BadgeEligibilitySpec(user, reportCount, resolvedCount);
    FilterDistinct(BadgeOrder, NewlyEarned(user, reportCount, resolvedCount));
  }

  /** Granting the badges it returns and asking again with the same counts yields nothing new. */
  lemma BadgeEligibilityIdempotent(user: User, reportCount: int, resolvedCount: int)
    ensures var earned := CheckBadgeEligibility(user, reportCount, resolvedCount);
      var after := user.(badges := Some(OrEmpty(user.badges) + earned));
      CheckBadgeEligibility(after, reportCount, resolvedCount) == []
  {
  }

  /** A user with no badges and one report earns only first_report; with 10 reports, 10 resolutions and 1000 points, all four. */
  lemma BadgeExamples(user: User)
    requires user.badges.None? || user.badges == Some([])
    ensures user.points.None? ==> CheckBadgeEligibility(user, 1, 0) == ["first_report"]
    ensures user.points == Some(1000) ==> CheckBadgeEligibility(user, 10, 10) == BadgeOrder
  {
  }

  // ---------------------------------------------------------------- leaderboard

  datatype LeaderboardEntry = LeaderboardEntry(rank: int, user: User, points: int, level: int)

  /** `user.role === "citizen" && user.points`: a citizen whose points are defined and non-zero. */
  predicate OnLeaderboard(u: User) {
    u.role == Citizen && u.points.Some? && u.points.value != 0
  }

  function PointsOf(u: User): int {
    OrNumber(u.points, 0)
  }

  /** The filtered users after `.sort((a, b) => (b.points || 0) - (a.points || 0))`. */
  function Ranked(users: seq<User>): seq<User> {
    SortDesc(Filter(users, OnLeaderboard), PointsOf)
  }

  /** `.map((user, index) => ({ rank: index + 1, user, points, level }))`. */
  function Entries(ranked: seq<User>): (r: seq<LeaderboardEntry>)
    ensures |r| == |ranked|
  {
    seq(|ranked|, i requires 0 <= i < |ranked| =>
      LeaderboardEntry(i + 1, ranked[i], PointsOf(ranked[i]), CalculateLevel(PointsOf(ranked[i])).level))
  }

  /** `generateLeaderboard`: `.slice(0, 50)` of the ranked entries. */
  function GenerateLeaderboard(users: seq<User>): seq<LeaderboardEntry> {
    Take(Entries(Ranked(users)), 50)
  }

  /**
    The leaderboard holds at most 50 entries, ranked 1..n consecutively, in non-increasing
    order of points; each entry is a citizen from the input with non-zero points, whose
    points and level are its own.
   */
  lemma LeaderboardShape(users: seq<User>)
    ensures var r := GenerateLeaderboard(users);
      && |r| == (if |Filter(users, OnLeaderboard)| < 50 then |Filter(users, OnLeaderboard)| else 50)
      && (forall i :: 0 <= i < |r| ==> r[i].rank == i + 1)
      && (forall i, j :: 0 <= i < j < |r| ==> r[i].points >= r[j].points)
      && (forall i :: 0 <= i < |r| ==>
            && r[i].user in users
            && r[i].user.role == Citizen
            && r[i].points == PointsOf(r[i].user) != 0
            && r[i].level == CalculateLevel(r[i].points).level)
  {
    var ranked := Ranked(users);
    var r := GenerateLeaderboard(users);
    LeaderboardEntryAt(users);
    RankedMembers(users);
    assert SortedDesc(ranked, PointsOf);
    forall i, j | 0 <= i < j < |r| ensures r[i].points >= r[j].points {
      assert r[i].points == PointsOf(ranked[i]) && r[j].points == PointsOf(ranked[j]);
    }
  }

  /** Entry i of the board is the citizen ranked i, with rank i + 1. */
  lemma LeaderboardEntryAt(users: seq<User>)
    ensures var ranked := Ranked(users);
      var r := GenerateLeaderboard(users);
      && |ranked| == |Filter(users, OnLeaderboard)|
      && |r| == (if |ranked| < 50 then |ranked| else 50)
      && forall i :: 0 <= i < |r| ==>
           r[i] == LeaderboardEntry(i + 1, ranked[i], PointsOf(ranked[i]), CalculateLevel(PointsOf(ranked[i])).level)
  {
  }

  /** Every ranked user is a leaderboard citizen taken from the input. */
  lemma RankedMembers(users: seq<User>)
    ensures forall i :: 0 <= i < |Ranked(users)| ==> Ranked(users)[i] in users && OnLeaderboard(Ranked(users)[i])
  {
    var f := Filter(users, OnLeaderboard);
    var ranked := Ranked(users);
    forall i | 0 <= i < |ranked|
      ensures ranked[i] in users && OnLeaderboard(ranked[i])
    {
      assert ranked[i] in multiset(ranked);
      assert ranked[i] in multiset(f);
      FilterMembers(users, OnLeaderboard, ranked[i]);
    }
  }

  /**
    Nobody who belongs on the board is missed: with at most 50 such citizens all of them
    appear, each as often as in the input; otherwise any of them with more points than the
    last entry appears.
   */
  lemma LeaderboardComplete(users: seq<User>, u: User)
    requires u in users && OnLeaderboard(u)
    ensures var r := GenerateLeaderboard(users);
      && (|Filter(users, OnLeaderboard)| <= 50 ==> multiset(Ranked(users)) == multiset(Filter(users, OnLeaderboard)) && |r| == |Ranked(users)|)
      && (|Filter(users, OnLeaderboard)| <= 50 || PointsOf(u) > r[|r| - 1].points ==>
            exists i :: 0 <= i < |r| && r[i].user == u)
  {
    var r := GenerateLeaderboard(users);
    var f := Filter(users, OnLeaderboard);
    var ranked := Ranked(users);
    LeaderboardEntryAt(users);
    FilterMembers(users, OnLeaderboard, u);
    assert u in multiset(ranked);
    var i :| 0 <= i < |ranked| && ranked[i] == u;
    if |f| <= 50 {
      assert r[i].user == u;
    } else if PointsOf(u) > r[|r| - 1].points {
      SortedBefore(ranked, PointsOf, i, 49);
      assert r[i].user == u;
    }
  }
}
