/**
  The reference tables of lib/constants.ts: zones, ministries, issue
  categories with their owning ministry, the citizen level tiers and the
  point values of scoring events.
 */
module Constants {

  import opened JsValues
  import opened Types

  datatype CategoryInfo = CategoryInfo(id: string, name: string, ministry: string, icon: string)

  /** The upper bound of a tier; the top tier's is `Number.POSITIVE_INFINITY`. */
  datatype Ceiling = AtMost(n: int) | Unbounded

  datatype LevelTier = LevelTier(level: int, name: string, minPoints: int, maxPoints: Ceiling, color: string)

  /** `points >= tier.minPoints && points <= tier.maxPoints`. */
  predicate InTier(t: LevelTier, points: int) {
    t.minPoints <= points && (t.maxPoints.Unbounded? || points <= t.maxPoints.n)
  }

  const JharkhandZones: seq<Zone> := [
    Zone("ranchi", "Ranchi", ["Ranchi", "Khunti", "Lohardaga"], None),
    Zone("dhanbad", "Dhanbad", ["Dhanbad", "Bokaro", "Giridih"], None),
    Zone("jamshedpur", "Jamshedpur", ["East Singhbhum", "West Singhbhum", "Seraikela-Kharsawan"], None),
    Zone("hazaribagh", "Hazaribagh", ["Hazaribagh", "Chatra", "Koderma"], None),
    Zone("deoghar", "Deoghar", ["Deoghar", "Dumka", "Jamtara"], None),
    Zone("palamu", "Palamu", ["Palamu", "Latehar", "Garhwa"], None)
  ]

  const Ministries: seq<Ministry> := [
    Ministry("urban_dev", "Urban Development", ["Municipal Corporation", "Town Planning", "Housing"], None),
    Ministry("rural_dev", "Rural Development", ["Panchayati Raj", "Rural Infrastructure", "MGNREGA"], None),
    Ministry("environment", "Environment & Forest", ["Pollution Control", "Forest Conservation", "Wildlife"], None),
    Ministry("transport", "Transport", ["Road Transport", "Public Works", "Traffic Management"], None),
    Ministry("water", "Water Resources", ["Water Supply", "Irrigation", "Drainage"], None)
  ]

  const IssueCategories: seq<CategoryInfo> := [
    CategoryInfo("pothole", "Pothole", "transport", "🕳️"),
    CategoryInfo("streetlight", "Street Light", "urban_dev", "💡"),
    CategoryInfo("garbage", "Garbage/Waste", "urban_dev", "🗑️"),
    CategoryInfo("water", "Water Supply", "water", "💧"),
    CategoryInfo("electricity", "Electricity", "urban_dev", "⚡"),
    CategoryInfo("other", "Other", "urban_dev", "📝")
  ]

  const CitizenLevels: seq<LevelTier> := [
    LevelTier(1, "Newcomer", 0, AtMost(99), "bg-gray-500"),
    LevelTier(2, "Contributor", 100, AtMost(299), "bg-blue-500"),
    LevelTier(3, "Advocate", 300, AtMost(599), "bg-green-500"),
    LevelTier(4, "Champion", 600, AtMost(999), "bg-yellow-500"),
    LevelTier(5, "Guardian", 1000, AtMost(1999), "bg-purple-500"),
    LevelTier(6, "Legend", 2000, Unbounded, "bg-red-500")
  ]

  /** The keys of POINT_SYSTEM. */
  datatype PointAction =
    | ReportSubmitted | ReportAcknowledged | IssueResolved
    | FirstReportBonus | WeeklyStreak | MonthlyStreak

  /** `POINT_SYSTEM[action]`. */
  function PointValue(action: PointAction): nat {
    match action
    case ReportSubmitted => 10
    case ReportAcknowledged => 5
    case IssueResolved => 50
    case FirstReportBonus => 25
    case WeeklyStreak => 20
    case MonthlyStreak => 100
  }

  // ---------------------------------------------------------------- well-formedness

  /** Six tiers numbered 1..6 in order, starting at 0, each min one past the previous max, the last unbounded. */
  lemma TiersContiguous()
    ensures |CitizenLevels| == 6
    ensures forall i :: 0 <= i < 6 ==> CitizenLevels[i].level == i + 1
    ensures CitizenLevels[0].minPoints == 0
    ensures forall i :: 0 <= i < 5 ==> CitizenLevels[i].maxPoints == AtMost(CitizenLevels[i + 1].minPoints - 1)
    ensures CitizenLevels[5].maxPoints == Unbounded
  {
  }

  /** The index of the tier containing p, for p >= 0. */
  function TierIndex(p: nat): (i: nat)
    ensures i < |CitizenLevels| && InTier(CitizenLevels[i], p)
  {
    if p < 100 then 0 else if p < 300 then 1 else if p < 600 then 2
    else if p < 1000 then 3 else if p < 2000 then 4 else 5
  }

  /** Every non-negative number of points lies in exactly one tier; a negative number in none. */
  lemma {:induction false} ExactlyOneTier(p: int)
    ensures p >= 0 ==> forall i :: 0 <= i < |CitizenLevels| && InTier(CitizenLevels[i], p) ==> i == TierIndex(p)
    ensures p < 0 ==> forall i :: 0 <= i < |CitizenLevels| ==> !InTier(CitizenLevels[i], p)
  {
    TiersContiguous();
  }

  /** Every category is routed to a ministry listed in MINISTRIES; category ids are the Category literals. */
  lemma CategoryMinistriesKnown()
    ensures forall i :: 0 <= i < |IssueCategories| ==>
      exists j :: 0 <= j < |Ministries| && Ministries[j].id == IssueCategories[i].ministry
    ensures |IssueCategories| == |AllCategories|
    ensures forall i :: 0 <= i < |IssueCategories| ==> IssueCategories[i].id == AllCategories[i].Id()
  {
    assert Ministries[3].id == IssueCategories[0].ministry;
    assert Ministries[0].id == IssueCategories[1].ministry;
    assert Ministries[4].id == IssueCategories[3].ministry;
  }

  /** Zone ids are pairwise distinct, and so are ministry ids and category ids. */
  lemma IdsDistinct()
    ensures forall i, j :: 0 <= i < j < |JharkhandZones| ==> JharkhandZones[i].id != JharkhandZones[j].id
    ensures forall i, j :: 0 <= i < j < |Ministries| ==> Ministries[i].id != Ministries[j].id
    ensures forall i, j :: 0 <= i < j < |IssueCategories| ==> IssueCategories[i].id != IssueCategories[j].id
  {
  }

  /** The six point values, all positive. */
  lemma PointValuesPositive(a: PointAction)
    ensures PointValue(a) > 0
    ensures [PointValue(ReportSubmitted), PointValue(ReportAcknowledged), PointValue(IssueResolved),
             PointValue(FirstReportBonus), PointValue(WeeklyStreak), PointValue(MonthlyStreak)]
         == [10, 5, 50, 25, 20, 100]
  {
  }
}
