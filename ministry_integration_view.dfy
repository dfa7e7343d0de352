/**
  The ministry admin's integrations panel of
  components/admin/ministry-integration.tsx: the relative "last sync" label,
  and the panel state (the ministry's integrations, the external issues
  fetched so far, the loading flag) driven through the integration service.
  The clock is the `now` parameter; the toasts are left out.
 */
module MinistryIntegrationView {

  import opened JsValues
  import opened Text
  import opened Seqs
  import opened MinistryIntegration

  // ---------------------------------------------------------------- relative time

  /** `${n} ${unit}${n > 1 ? "s" : ""} ago`. */
  function Ago(n: nat, unit: string): string {
    NatToString(n) + " " + unit + (if n > 1 then "s" else "") + " ago"
  }

  /**
    `formatLastSync(date)` at time now, both in milliseconds: whole days if at least one, else
    whole hours if at least one, else "Just now". `Math.floor` of a quotient by a positive divisor
    is Dafny's `/`.
   */
  function FormatLastSync(now: int, date: int): string {
    var diffMs := now - date;
    var diffHours := diffMs / Hour;
    var diffDays := diffHours / 24;
    if diffDays > 0 then Ago(diffDays, "day")
    else if diffHours > 0 then Ago(diffHours, "hour")
    else "Just now"
  }

  /** Flooring by hours and then by 24 is flooring by days, for any sign of the difference. */
  lemma HoursThenDays(diffMs: int)
    ensures (diffMs / Hour) / 24 == diffMs / Day
  {
    var q := diffMs / Day;
    var r := diffMs % Day;
    assert diffMs == q * Day + r && 0 <= r < Day;
    var h := r / Hour;
    assert 0 <= h < 24 by {
      assert r == h * Hour + r % Hour;
    }
    assert diffMs == (q * 24 + h) * Hour + r % Hour;
    assert diffMs / Hour == q * 24 + h;
  }

  /**
    The label is "Just now" exactly for a difference under an hour, future dates included; from
    one hour to just under a day it counts whole hours (1 to 23); from a day on it counts whole
    days; the unit takes an "s" exactly when the count exceeds one.
   */
  lemma FormatLastSyncSpec(now: int, date: int)
    ensures var d := now - date;
      && (FormatLastSync(now, date) == "Just now" <==> d < Hour)
      && (Hour <= d < Day ==>
            1 <= d / Hour <= 23 && FormatLastSync(now, date) == Ago(d / Hour, "hour"))
      && (Day <= d ==> FormatLastSync(now, date) == Ago(d / Day, "day"))
  {
    HoursThenDays(now - date);
    var d := now - date;
    if d >= Hour {
      AgoNotJustNow(d / Hour, "hour");
      AgoNotJustNow(d / Day, "day");
    }
  }

  lemma AgoNotJustNow(n: nat, unit: string)
    ensures Ago(n, unit) != "Just now"
  {
    var s := Ago(n, unit);
    assert IsDigit(s[0]);
  }

  /** The count reads back from the label, and the plural "s" appears exactly for counts above one. */
  lemma AgoSpec(n: nat, unit: string)
    ensures ParseDecimal(NatToString(n)) == n
    ensures Ago(n, unit) == NatToString(n) + " " + unit + "s ago" <==> n > 1
  {
    ParseNatToString(n);
    if n <= 1 {
      var s := NatToString(n) + " " + unit + " ago";
      var t := NatToString(n) + " " + unit + "s ago";
      assert |s| != |t|;
    }
  }

  // ---------------------------------------------------------------- the panel

  class IntegrationPanel {
    /** The ministry whose integrations the panel shows. */
    const ministry: string
    const service: MinistryIntegrationService
    var integrations: seq<Integration>
    var externalIssues: seq<ExternalIssue>
    var isLoading: bool
    var selectedIntegration: Option<Integration>

    /** The panel as first shown: the effect has loaded the ministry's integrations. */
    constructor (ministry: string, service: MinistryIntegrationService)
      ensures this.ministry == ministry && this.service == service
      ensures integrations == service.GetIntegrations(Some(ministry))
      ensures externalIssues == [] && !isLoading && selectedIntegration == None
    {
      this.ministry := ministry;
      this.service := service;
      integrations := service.GetIntegrations(Some(ministry));
      externalIssues := [];
      isLoading := false;
      selectedIntegration := None;
    }

    /** The Sync button: disabled while loading or when the integration is in error. */
    predicate SyncEnabled(integration: Integration)
      reads this
    {
      !isLoading && integration.status != Error
    }

    /** The Test button: disabled while loading. */
    predicate TestEnabled()
      reads this
    {
      !isLoading
    }

    /** `loadIntegrations()`. */
    method LoadIntegrations()
      modifies this
      ensures integrations == service.GetIntegrations(Some(ministry))
      ensures externalIssues == old(externalIssues) && isLoading == old(isLoading)
      ensures selectedIntegration == old(selectedIntegration)
    {
      integrations := service.GetIntegrations(Some(ministry));
    }

    /**
      `handleSync(id)`: a successful sync appends the fetched issues after those already shown and
      reloads the list; a failed one changes neither. Loading is over either way.
     */
    method HandleSync(id: string, now: int) returns (synced: bool)
      modifies this, service
      ensures service.integrations == AfterSync(old(service.integrations), id, now)
      ensures synced <==> IndexOf(old(service.integrations), id).Some?
      ensures synced ==>
        && externalIssues == old(externalIssues) + MockExternalIssues(old(service.integrations)[IndexOf(old(service.integrations), id).value].name, now)
        && integrations == service.GetIntegrations(Some(ministry))
      ensures !synced ==> externalIssues == old(externalIssues) && integrations == old(integrations)
      ensures !isLoading && selectedIntegration == old(selectedIntegration)
    {
      isLoading := true;
      var r := service.SyncWithExternal(id, now);
      synced := r.Ok?;
      if r.Ok? {
        externalIssues := externalIssues + r.value;
        LoadIntegrations();
      }
      isLoading := false;
    }

    /** `handleTestConnection(id)`: the test records its outcome in the service, then the list is reloaded. */
    method HandleTestConnection(id: string, success: bool) returns (ok: bool)
      modifies this, service
      ensures service.integrations == AfterTest(old(service.integrations), id, success)
      ensures ok == (IndexOf(old(service.integrations), id).Some? && success)
      ensures integrations == service.GetIntegrations(Some(ministry))
      ensures externalIssues == old(externalIssues)
      ensures !isLoading && selectedIntegration == old(selectedIntegration)
    {
      isLoading := true;
      ok := service.TestConnection(id, success);
      LoadIntegrations();
      isLoading := false;
    }

    /** The Configure button. */
    method SelectIntegration(integration: Integration)
      modifies this
      ensures selectedIntegration == Some(integration)
      ensures integrations == old(integrations) && externalIssues == old(externalIssues) && isLoading == old(isLoading)
    {
      selectedIntegration := Some(integration);
    }
  }

  /**
    Once a sync of an integration of the panel's ministry has gone through, that integration is
    listed as connected, synced at now, and its Sync button is enabled again.
   */
  lemma SyncedEntryShown(list: seq<Integration>, id: string, now: int, ministry: string, k: nat)
    requires ministry != "" && k < |list| && list[k].id == id && list[k].ministry == ministry
    requires forall j :: 0 <= j < k ==> list[j].id != id
    ensures var shown := ForMinistry(AfterSync(list, id, now), Some(ministry));
      exists i :: 0 <= i < |shown| && shown[i] == list[k].(status := Connected, lastSync := now)
  {
    AfterSyncSpec(list, id, now);
    var after := AfterSync(list, id, now);
    assert after[k] == list[k].(status := Connected, lastSync := now);
    var shown := ForMinistry(after, Some(ministry));
    FilterMembers(after, OfMinistry(ministry), after[k]);
    assert after[k] in shown;
  }
}
