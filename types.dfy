/**
  The records and string-literal unions of types/index.ts. Optional fields
  (`?`) are `Option`s; `Date`s are milliseconds since the epoch; `number`
  counters are integers.
 */
module Types {

  import opened JsValues

  datatype Role = Citizen | ZonalAdmin | MinistryAdmin {
    function Id(): string {
      match this
      case Citizen => "citizen"
      case ZonalAdmin => "zonal_admin"
      case MinistryAdmin => "ministry_admin"
    }
  }

  datatype Category = Pothole | Streetlight | Garbage | Water | Electricity | Other {
    function Id(): string {
      match this
      case Pothole => "pothole"
      case Streetlight => "streetlight"
      case Garbage => "garbage"
      case Water => "water"
      case Electricity => "electricity"
      case Other => "other"
    }
  }

  datatype Priority = Low | Medium | High | Urgent {
    function Id(): string {
      match this
      case Low => "low"
      case Medium => "medium"
      case High => "high"
      case Urgent => "urgent"
    }
  }

  datatype Status = Submitted | Acknowledged | InProgress | Resolved | Rejected {
    function Id(): string {
      match this
      case Submitted => "submitted"
      case Acknowledged => "acknowledged"
      case InProgress => "in_progress"
      case Resolved => "resolved"
      case Rejected => "rejected"
    }
  }

  const AllStatuses: seq<Status> := [Submitted, Acknowledged, InProgress, Resolved, Rejected]
  const AllCategories: seq<Category> := [Pothole, Streetlight, Garbage, Water, Electricity, Other]
  const AllPriorities: seq<Priority> := [Low, Medium, High, Urgent]

  /** The status whose literal is s, if any. */
  function ParseStatus(s: string): (r: Option<Status>)
    ensures r.Some? ==> r.value.Id() == s
  {
    if s == "submitted" then Some(Submitted)
    else if s == "acknowledged" then Some(Acknowledged)
    else if s == "in_progress" then Some(InProgress)
    else if s == "resolved" then Some(Resolved)
    else if s == "rejected" then Some(Rejected)
    else None
  }

  /** The status union has exactly five members, each with its own literal. */
  lemma StatusLiterals(st: Status)
    ensures ParseStatus(st.Id()) == Some(st)
    ensures st in AllStatuses
    ensures |AllStatuses| == 5
    ensures forall i, j :: 0 <= i < j < |AllStatuses| ==> AllStatuses[i].Id() != AllStatuses[j].Id()
  {
  }

  /** Six categories and four priorities, each literal distinct. */
  lemma CategoryAndPriorityLiterals(c: Category, p: Priority)
    ensures c in AllCategories && |AllCategories| == 6
    ensures forall i, j :: 0 <= i < j < |AllCategories| ==> AllCategories[i].Id() != AllCategories[j].Id()
    ensures p in AllPriorities && |AllPriorities| == 4
    ensures forall i, j :: 0 <= i < j < |AllPriorities| ==> AllPriorities[i].Id() != AllPriorities[j].Id()
  {
  }

  datatype User = User(
    id: string,
    email: string,
    name: string,
    role: Role,
    zone: Option<string>,
    ministry: Option<string>,
    points: Option<int>,
    level: Option<int>,
    badges: Option<seq<string>>,
    createdAt: int)

  datatype Location = Location(latitude: real, longitude: real, address: string, zone: string)

  /** One entry of an issue's history; its status is a free string, not the Status union. */
  datatype TimelineEvent = TimelineEvent(
    id: string,
    status: string,
    message: string,
    timestamp: int,
    updatedBy: string)

  datatype CivicIssue = CivicIssue(
    id: string,
    title: string,
    description: string,
    voiceNote: Option<string>,
    category: Category,
    priority: Priority,
    status: Status,
    location: Location,
    images: seq<string>,
    reportedBy: string,
    assignedTo: Option<string>,
    ministry: string,
    createdAt: int,
    updatedAt: int,
    timeline: seq<TimelineEvent>)

  /** `export type Issue = CivicIssue`. */
  type Issue = CivicIssue

  datatype Zone = Zone(id: string, name: string, districts: seq<string>, adminId: Option<string>)

  datatype Ministry = Ministry(id: string, name: string, departments: seq<string>, adminId: Option<string>)

  datatype Badge = Badge(id: string, name: string, description: string, icon: string, earnedAt: int)

  datatype GamificationData = GamificationData(
    points: int,
    level: int,
    levelName: string,
    badges: seq<Badge>,
    nextLevelPoints: int,
    currentLevelPoints: int)

  datatype Statistics = Statistics(
    issuesReported: int,
    issuesResolved: int,
    activeUsers: int,
    averageResolutionTime: real)
}
