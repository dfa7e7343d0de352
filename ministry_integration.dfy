/**
  MinistryIntegrationService of lib/ministry-integration.ts: a list of
  connection records to external ministry portals, updated in place by sync,
  connection test and configuration update. The clock is the `now` parameter
  and the random outcome of a connection test is the `success` parameter; the
  simulated network delays are left out, so each operation is atomic.
 */
module MinistryIntegration {

  import opened JsValues
  import opened Seqs

  datatype IntegrationStatus = Connected | Disconnected | Error

  datatype Integration = Integration(
    id: string,
    name: string,
    ministry: string,
    endpoint: string,
    status: IntegrationStatus,
    lastSync: int,
    apiKey: Option<string>)

  datatype ExternalIssue = ExternalIssue(
    externalId: string,
    source: string,
    title: string,
    status: string,
    priority: string,
    assignedDepartment: string,
    lastUpdated: int)

  /** `Partial<MinistryIntegration>`: the fields an update supplies. */
  datatype IntegrationUpdate = IntegrationUpdate(
    id: Option<string>,
    name: Option<string>,
    ministry: Option<string>,
    endpoint: Option<string>,
    status: Option<IntegrationStatus>,
    lastSync: Option<int>,
    apiKey: Option<string>)

  const Minute: int := 60 * 1000
  const Hour: int := 60 * Minute
  const Day: int := 24 * Hour

  /** The five integrations the service starts with, their last syncs relative to `now`. */
  function InitialIntegrations(now: int): seq<Integration> {
    [
      Integration("urban-portal", "Urban Development Portal", "urban_dev",
        "https://urban.jharkhand.gov.in/api", Connected, now - 2 * Hour, None),
      Integration("transport-mgmt", "Transport Management System", "transport",
        "https://transport.jharkhand.gov.in/api", Connected, now - 30 * Minute, None),
      Integration("water-board", "Water Resources Board", "water",
        "https://water.jharkhand.gov.in/api", Error, now - 24 * Hour, None),
      Integration("env-clearance", "Environment Clearance Portal", "environment",
        "https://environment.jharkhand.gov.in/api", Disconnected, now - 7 * Day, None),
      Integration("rural-dev", "Rural Development Database", "rural_dev",
        "https://rural.jharkhand.gov.in/api", Connected, now - 1 * Hour, None)
    ]
  }

  function HasId(id: string): Integration -> bool {
    (i: Integration) => i.id == id
  }

  function OfMinistry(ministry: string): Integration -> bool {
    (i: Integration) => i.ministry == ministry
  }

  /** `this.integrations.findIndex(i => i.id === id)`. */
  function IndexOf(list: seq<Integration>, id: string): Option<nat> {
    FindIndex(list, HasId(id))
  }

  /** `getIntegrations(ministry?)`: a filter when a non-empty ministry is given, the whole list otherwise. */
  function ForMinistry(list: seq<Integration>, ministry: Option<string>): (r: seq<Integration>)
    ensures ministry.None? || ministry.value == "" ==> r == list
    ensures ministry.Some? && ministry.value != "" ==>
      forall i :: 0 <= i < |r| ==> r[i].ministry == ministry.value
  {
    if ministry.Some? && ministry.value != "" then Filter(list, OfMinistry(ministry.value)) else list
  }

  /** With a ministry, the result holds every entry of that ministry as often as the list does, in stored order, and nothing else. */
  lemma ForMinistrySpec(list: seq<Integration>, more: seq<Integration>, m: string, x: Integration)
    requires m != ""
    ensures multiset(ForMinistry(list, Some(m)))[x] == if x.ministry == m then multiset(list)[x] else 0
    ensures ForMinistry(list + more, Some(m)) == ForMinistry(list, Some(m)) + ForMinistry(more, Some(m))
  {
    FilterCount(list, OfMinistry(m), x);
    FilterConcat(list, more, OfMinistry(m));
  }

  /** The ministry view counts every entry and keeps stored order. */
  lemma ForMinistryExact(list: seq<Integration>, m: string)
    requires m != ""
    ensures forall x :: multiset(ForMinistry(list, Some(m)))[x] == if x.ministry == m then multiset(list)[x] else 0
    ensures IsSubsequence(ForMinistry(list, Some(m)), list)
  {
    forall x {
      FilterCount(list, OfMinistry(m), x);
    }
    FilterIsSubsequence(list, OfMinistry(m));
  }

  /** The two issues a sync returns, both attributed to the integration's name. */
  function MockExternalIssues(source: string, now: int): (r: seq<ExternalIssue>)
    ensures |r| == 2 && forall i :: 0 <= i < |r| ==> r[i].source == source
  {
    [
      ExternalIssue("EXT-001", source, "Road maintenance required on NH-33", "In Progress", "High",
        "Public Works", now - 6 * Hour),
      ExternalIssue("EXT-002", source, "Water supply disruption in Sector 5", "Pending", "Urgent",
        "Water Supply", now - 2 * Hour)
    ]
  }

  /** `{ ...current, ...updates }`. */
  function Merge(current: Integration, u: IntegrationUpdate): Integration {
    Integration(
      if u.id.Some? then u.id.value else current.id,
      if u.name.Some? then u.name.value else current.name,
      if u.ministry.Some? then u.ministry.value else current.ministry,
      if u.endpoint.Some? then u.endpoint.value else current.endpoint,
      if u.status.Some? then u.status.value else current.status,
      if u.lastSync.Some? then u.lastSync.value else current.lastSync,
      if u.apiKey.Some? then u.apiKey else current.apiKey)
  }

  // ---------------------------------------------------------------- the list after each operation

  /** The list after `syncWithExternal(id)` at time now. */
  function AfterSync(list: seq<Integration>, id: string, now: int): seq<Integration> {
    match IndexOf(list, id)
    case None => list
    case Some(k) => list[k := list[k].(status := Connected, lastSync := now)]
  }

  /** The list after `testConnection(id)` whose random draw came out as `success`. */
  function AfterTest(list: seq<Integration>, id: string, success: bool): seq<Integration> {
    match IndexOf(list, id)
    case None => list
    case Some(k) => list[k := list[k].(status := if success then Connected else Error)]
  }

  /** The list after `updateIntegration(id, updates)`. */
  function AfterUpdate(list: seq<Integration>, id: string, updates: IntegrationUpdate): seq<Integration> {
    match IndexOf(list, id)
    case None => list
    case Some(k) => list[k := Merge(list[k], updates)]
  }

  /**
    A sync of a known id makes the first entry with that id connected and synced at now and
    leaves every other entry as it was; a sync of an unknown id changes nothing.
   */
  lemma AfterSyncSpec(list: seq<Integration>, id: string, now: int)
    ensures var r := AfterSync(list, id, now);
      && |r| == |list|
      && ((forall i :: 0 <= i < |list| ==> list[i].id != id) ==> r == list)
      && forall k :: 0 <= k < |list| && list[k].id == id && (forall j :: 0 <= j < k ==> list[j].id != id) ==>
           && r[k] == list[k].(status := Connected, lastSync := now)
           && forall j :: 0 <= j < |list| && j != k ==> r[j] == list[j]
  {
  }

  /** A test of a known id sets that entry to connected when the draw succeeds and to error when it fails. */
  lemma AfterTestSpec(list: seq<Integration>, id: string, success: bool)
    ensures var r := AfterTest(list, id, success);
      && |r| == |list|
      && ((forall i :: 0 <= i < |list| ==> list[i].id != id) ==> r == list)
      && forall k :: 0 <= k < |list| && list[k].id == id && (forall j :: 0 <= j < k ==> list[j].id != id) ==>
           && (r[k].status == Connected <==> success)
           && (r[k].status == Error <==> !success)
           && r[k] == list[k].(status := r[k].status)
           && forall j :: 0 <= j < |list| && j != k ==> r[j] == list[j]
  {
  }

  /** An update of a known id replaces that entry by the field-wise merge and nothing else. */
  lemma AfterUpdateSpec(list: seq<Integration>, id: string, u: IntegrationUpdate)
    ensures var r := AfterUpdate(list, id, u);
      && |r| == |list|
      && ((forall i :: 0 <= i < |list| ==> list[i].id != id) ==> r == list)
      && forall k :: 0 <= k < |list| && list[k].id == id && (forall j :: 0 <= j < k ==> list[j].id != id) ==>
           && r[k] == Merge(list[k], u)
           && forall j :: 0 <= j < |list| && j != k ==> r[j] == list[j]
  {
  }

  /** Applying the same update twice is applying it once, as long as the update keeps the id. */
  lemma AfterUpdateIdempotent(list: seq<Integration>, id: string, u: IntegrationUpdate)
    requires u.id.None? || u.id == Some(id)
    ensures AfterUpdate(AfterUpdate(list, id, u), id, u) == AfterUpdate(list, id, u)
  {
    var once := AfterUpdate(list, id, u);
    match IndexOf(list, id)
    case None =>
    case Some(k) =>
      assert once[k].id == id;
      assert forall j :: 0 <= j < k ==> once[j] == list[j];
      assert IndexOf(once, id) == Some(k);
  }

  /** Sync and connection test never move an entry to another ministry, so every ministry's view keeps its size. */
  lemma {:induction false} StatusChangesKeepMinistryViews(list: seq<Integration>, id: string, now: int, success: bool, m: string)
    ensures |ForMinistry(AfterSync(list, id, now), Some(m))| == |ForMinistry(list, Some(m))|
    ensures |ForMinistry(AfterTest(list, id, success), Some(m))| == |ForMinistry(list, Some(m))|
  {
    if m != "" {
      AfterSyncSpec(list, id, now);
      AfterTestSpec(list, id, success);
      SameMinistriesSameCount(AfterSync(list, id, now), list, m);
      SameMinistriesSameCount(AfterTest(list, id, success), list, m);
    }
  }

  lemma {:induction false} SameMinistriesSameCount(a: seq<Integration>, b: seq<Integration>, m: string)
    requires |a| == |b| && forall i :: 0 <= i < |a| ==> a[i].ministry == b[i].ministry
    ensures |Filter(a, OfMinistry(m))| == |Filter(b, OfMinistry(m))|
  {
    if a != [] {
      SameMinistriesSameCount(a[1..], b[1..], m);
    }
  }

  // ---------------------------------------------------------------- the service

  class MinistryIntegrationService {
    var integrations: seq<Integration>

    constructor (now: int)
      ensures integrations == InitialIntegrations(now)
    {
      integrations := InitialIntegrations(now);
    }

    /**
      `getIntegrations(ministry?)`: with a non-empty ministry, exactly the stored entries of that
      ministry, each as often as stored, in stored order; otherwise the whole list.
     */
    function GetIntegrations(ministry: Option<string>): (r: seq<Integration>)
      reads this
      ensures ministry.None? || ministry.value == "" ==> r == integrations
      ensures ministry.Some? && ministry.value != "" ==>
        && (forall x :: multiset(r)[x] == if x.ministry == ministry.value then multiset(integrations)[x] else 0)
        && IsSubsequence(r, integrations)
    {
      if ministry.Some? && ministry.value != "" then
        ForMinistryExact(integrations, ministry.value);
        ForMinistry(integrations, ministry)
      else
        ForMinistry(integrations, ministry)
    }

    /** `syncWithExternal(id)`: throws "Integration not found" for an unknown id. */
    method SyncWithExternal(id: string, now: int) returns (r: Result<seq<ExternalIssue>>)
      modifies this
      ensures integrations == AfterSync(old(integrations), id, now)
      ensures IndexOf(old(integrations), id).None? ==> r == Err("Integration not found")
      ensures IndexOf(old(integrations), id).Some? ==>
        r == Ok(MockExternalIssues(old(integrations)[IndexOf(old(integrations), id).value].name, now))
    {
      var k := IndexOf(integrations, id);
      if k.None? {
        return Err("Integration not found");
      }
      var integration := integrations[k.value];
      integrations := integrations[k.value := integration.(status := Connected, lastSync := now)];
      r := Ok(MockExternalIssues(integration.name, now));
    }

    /** `testConnection(id)`: false for an unknown id; otherwise the draw, recorded as the entry's status. */
    method TestConnection(id: string, success: bool) returns (ok: bool)
      modifies this
      ensures integrations == AfterTest(old(integrations), id, success)
      ensures ok == (IndexOf(old(integrations), id).Some? && success)
    {
      var k := IndexOf(integrations, id);
      if k.None? {
        return false;
      }
      integrations := integrations[k.value := integrations[k.value].(status := if success then Connected else Error)];
      ok := success;
    }

    /** `updateIntegration(id, updates)`: a no-op for an unknown id. */
    method UpdateIntegration(id: string, updates: IntegrationUpdate)
      modifies this
      ensures integrations == AfterUpdate(old(integrations), id, updates)
    {
      var k := IndexOf(integrations, id);
      if k.Some? {
        integrations := integrations[k.value := Merge(integrations[k.value], updates)];
      }
    }
  }
}
