/**
  The citizen's report form of components/citizen/report-issue-form.tsx:
  the form fields, the attached images (at most three), the recorded voice
  note, and the issue record a submission builds. Files and blobs are opaque
  references and `URL.createObjectURL` is the `objectUrl` parameter; the
  clock is `now`; toasts, the simulated delay and the `onSuccess` callback
  are left out.
 */
module ReportIssueForm {

  import opened JsValues
  import opened Types
  import opened Constants
  import opened Seqs

  const MaxImages: nat := 3

  datatype FormLocation = FormLocation(address: string, zone: string, latitude: real, longitude: real)

  /** The form state; the category stays a free string until it is cast when the issue is built. */
  datatype FormData = FormData(
    title: string,
    description: string,
    category: string,
    priority: Priority,
    location: FormLocation)

  /** The fresh form: every text field empty, priority medium, coordinates 0. */
  const EmptyForm: FormData := FormData("", "", "", Medium, FormLocation("", "", 0.0, 0.0))

  datatype Coordinates = Coordinates(lat: real, lng: real)

  /** `Omit<CivicIssue, "id" | "createdAt" | "updatedAt">` as built on submit; the category cast is unchecked. */
  datatype IssueDraft = IssueDraft(
    title: string,
    description: string,
    category: string,
    priority: Priority,
    status: Status,
    location: Location,
    images: seq<string>,
    voiceNote: Option<string>,
    reportedBy: string,
    ministry: string,
    timeline: seq<TimelineEvent>)

  // ---------------------------------------------------------------- ministry routing

  /**
    `table.find(cat => cat.id === category)?.ministry`: the ministry of the first entry with that
    id, undefined when there is none.
   */
  function FindMinistry(table: seq<CategoryInfo>, category: string): Option<string> {
    if table == [] then None
    else if table[0].id == category then Some(table[0].ministry)
    else FindMinistry(table[1..], category)
  }

  /** FindMinistry answers with the first entry carrying the id, and with nothing when no entry does. */
  lemma {:induction false} FindMinistryFirst(table: seq<CategoryInfo>, category: string)
    ensures forall k :: 0 <= k < |table| && table[k].id == category && (forall j :: 0 <= j < k ==> table[j].id != category) ==>
      FindMinistry(table, category) == Some(table[k].ministry)
    ensures (forall k :: 0 <= k < |table| ==> table[k].id != category) ==> FindMinistry(table, category) == None
  {
    if table != [] {
      FindMinistryFirst(table[1..], category);
      forall k | 0 < k < |table| && table[k].id == category && (forall j :: 0 <= j < k ==> table[j].id != category)
        ensures FindMinistry(table, category) == Some(table[k].ministry)
      {
        assert table[1..][k - 1] == table[k];
        assert forall j :: 0 <= j < k - 1 ==> table[1..][j] == table[j + 1];
      }
    }
  }

  /** `ISSUE_CATEGORIES.find(cat => cat.id === category)?.ministry || "urban_dev"`. */
  function MinistryForCategory(category: string): string {
    OrString(FindMinistry(IssueCategories, category), "urban_dev")
  }

  /**
    A category is routed to the ministry its table entry names: pothole to transport, water to
    water, the other four to urban_dev; an unknown category (the form's initial "" included) goes
    to urban_dev; so every route ends at a ministry listed in MINISTRIES.
   */
  lemma CategoryRouting(category: string)
    ensures forall i :: 0 <= i < |IssueCategories| && IssueCategories[i].id == category ==>
      MinistryForCategory(category) == IssueCategories[i].ministry
    ensures category == "pothole" ==> MinistryForCategory(category) == "transport"
    ensures category == "water" ==> MinistryForCategory(category) == "water"
    ensures category in ["streetlight", "garbage", "electricity", "other"] ==> MinistryForCategory(category) == "urban_dev"
    ensures (forall i :: 0 <= i < |IssueCategories| ==> IssueCategories[i].id != category) ==>
      MinistryForCategory(category) == "urban_dev"
    ensures exists j :: 0 <= j < |Ministries| && Ministries[j].id == MinistryForCategory(category)
  {
    RoutedByEntry(category);
    if category == "pothole" {
      assert IssueCategories[0].id == category;
    } else if category == "water" {
      assert IssueCategories[3].id == category;
    } else if category in ["streetlight", "garbage", "electricity", "other"] {
      var k := if category == "streetlight" then 1 else if category == "garbage" then 2
               else if category == "electricity" then 4 else 5;
      assert IssueCategories[k].id == category;
    }
    CategoryMinistriesKnown();
    if exists i :: 0 <= i < |IssueCategories| && IssueCategories[i].id == category {
      var k :| 0 <= k < |IssueCategories| && IssueCategories[k].id == category;
      var j :| 0 <= j < |Ministries| && Ministries[j].id == IssueCategories[k].ministry;
    } else {
      assert Ministries[0].id == "urban_dev";
    }
  }

  /** A category found in the table is routed to that entry's ministry; one not found to urban_dev. */
  lemma RoutedByEntry(category: string)
    ensures forall i :: 0 <= i < |IssueCategories| && IssueCategories[i].id == category ==>
      MinistryForCategory(category) == IssueCategories[i].ministry
    ensures (forall i :: 0 <= i < |IssueCategories| ==> IssueCategories[i].id != category) ==>
      MinistryForCategory(category) == "urban_dev"
  {
    FindMinistryFirst(IssueCategories, category);
    IdsDistinct();
    forall i | 0 <= i < |IssueCategories| && IssueCategories[i].id == category
      ensures MinistryForCategory(category) == IssueCategories[i].ministry
    {
      assert IssueCategories[i].ministry != "";
    }
  }

  // ---------------------------------------------------------------- images

  /** `images.filter((_, i) => i !== index)`. */
  function WithoutPosition<T>(s: seq<T>, index: int): (r: seq<T>)
    ensures 0 <= index < |s| ==> r == s[..index] + s[index + 1..]
    ensures !(0 <= index < |s|) ==> r == s
  {
    if s == [] then []
    else (if index == 0 then [] else [s[0]]) + WithoutPosition(s[1..], index - 1)
  }

  /** Removing a position shortens the list by one and keeps every other image, in order. */
  lemma RemovePositionSpec<T>(s: seq<T>, index: int)
    requires 0 <= index < |s|
    ensures |WithoutPosition(s, index)| == |s| - 1
    ensures forall i :: 0 <= i < index ==> WithoutPosition(s, index)[i] == s[i]
    ensures forall i :: index <= i < |s| - 1 ==> WithoutPosition(s, index)[i] == s[i + 1]
  {
  }

  // ---------------------------------------------------------------- the new issue

  /** `x || y` for coordinates, where 0 is falsy. */
  function OrCoordinate(x: real, y: real): real {
    if x != 0.0 then x else y
  }

  /** The record handleSubmit builds from the form at time now. */
  function NewIssue(form: FormData, images: seq<string>, audio: Option<string>, current: Option<Coordinates>,
                    user: User, now: int, objectUrl: string -> string): IssueDraft
  {
    IssueDraft(
      form.title,
      form.description,
      form.category,
      form.priority,
      Submitted,
      Location(
        OrCoordinate(form.location.latitude, OrCoordinate(if current.Some? then current.value.lat else 0.0, 0.0)),
        OrCoordinate(form.location.longitude, OrCoordinate(if current.Some? then current.value.lng else 0.0, 0.0)),
        form.location.address,
        form.location.zone),
      seq(|images|, i requires 0 <= i < |images| => objectUrl(images[i])),
      if audio.Some? then Some(objectUrl(audio.value)) else None,
      user.id,
      MinistryForCategory(form.category),
      [TimelineEvent("1", "submitted", "Issue reported by citizen", now, user.id)])
  }

  /**
    A new issue is submitted by the user, starts a one-entry timeline recording exactly that, is
    routed by its category, carries one URL per attached image in order, has a voice note exactly
    when a recording is held, and keeps the typed coordinates unless they are 0, falling back to
    the captured position and then to 0.
   */
  lemma NewIssueSpec(form: FormData, images: seq<string>, audio: Option<string>, current: Option<Coordinates>,
                     user: User, now: int, objectUrl: string -> string)
    ensures var d := NewIssue(form, images, audio, current, user, now, objectUrl);
      && d.status == Submitted && d.reportedBy == user.id
      && |d.timeline| == 1 && d.timeline[0].id == "1" && d.timeline[0].status == Submitted.Id()
      && d.timeline[0].updatedBy == user.id && d.timeline[0].timestamp == now
      && d.ministry == MinistryForCategory(form.category)
      && (d.voiceNote.Some? <==> audio.Some?)
      && |d.images| == |images| && (forall i :: 0 <= i < |images| ==> d.images[i] == objectUrl(images[i]))
      && (form.location.latitude != 0.0 ==> d.location.latitude == form.location.latitude)
      && (form.location.latitude == 0.0 && current.Some? ==> d.location.latitude == current.value.lat)
      && (form.location.latitude == 0.0 && current.None? ==> d.location.latitude == 0.0)
      && (form.location.longitude != 0.0 ==> d.location.longitude == form.location.longitude)
      && (form.location.longitude == 0.0 && current.Some? ==> d.location.longitude == current.value.lng)
      && (form.location.longitude == 0.0 && current.None? ==> d.location.longitude == 0.0)
      && d.location.address == form.location.address && d.location.zone == form.location.zone
  {
  }

  // ---------------------------------------------------------------- the form component

  class ReportForm {
    var formData: FormData
    var images: seq<string>
    var audioBlob: Option<string>
    var isSubmitting: bool
    var currentLocation: Option<Coordinates>

    /** At most three images are ever attached. */
    predicate Valid()
      reads this
    {
      |images| <= MaxImages
    }

    constructor ()
      ensures formData == EmptyForm && images == [] && audioBlob == None
      ensures !isSubmitting && currentLocation == None
      ensures Valid()
    {
      formData := EmptyForm;
      images := [];
      audioBlob := None;
      isSubmitting := false;
      currentLocation := None;
    }

    /** The success callback of getCurrentLocation: records the position and copies it into the form. */
    method LocationCaptured(lat: real, lng: real)
      modifies this
      ensures currentLocation == Some(Coordinates(lat, lng))
      ensures formData == old(formData).(location := old(formData).location.(latitude := lat, longitude := lng))
      ensures images == old(images) && audioBlob == old(audioBlob) && isSubmitting == old(isSubmitting)
    {
      currentLocation := Some(Coordinates(lat, lng));
      formData := formData.(location := formData.location.(latitude := lat, longitude := lng));
    }

    /** `handleImageUpload`: a batch that would take the count past three is refused whole. */
    method HandleImageUpload(files: seq<string>) returns (accepted: bool)
      modifies this
      ensures accepted <==> |old(images)| + |files| <= MaxImages
      ensures accepted ==> images == old(images) + files
      ensures !accepted ==> images == old(images)
      ensures old(Valid()) ==> Valid()
      ensures formData == old(formData) && audioBlob == old(audioBlob) && currentLocation == old(currentLocation)
      ensures isSubmitting == old(isSubmitting)
    {
      if |images| + |files| > MaxImages {
        return false;
      }
      images := images + files;
      accepted := true;
    }

    /** `removeImage(index)`. */
    method RemoveImage(index: int)
      modifies this
      ensures images == WithoutPosition(old(images), index)
      ensures old(Valid()) ==> Valid()
      ensures formData == old(formData) && audioBlob == old(audioBlob) && currentLocation == old(currentLocation)
      ensures isSubmitting == old(isSubmitting)
    {
      images := WithoutPosition(images, index);
    }

    /** `handleRecordingComplete(blob)`. */
    method HandleRecordingComplete(blob: string)
      modifies this
      ensures audioBlob == Some(blob)
      ensures formData == old(formData) && images == old(images) && currentLocation == old(currentLocation)
      ensures isSubmitting == old(isSubmitting)
    {
      audioBlob := Some(blob);
    }

    /** `handleRecordingDelete()`. */
    method HandleRecordingDelete()
      modifies this
      ensures audioBlob == None
      ensures formData == old(formData) && images == old(images) && currentLocation == old(currentLocation)
      ensures isSubmitting == old(isSubmitting)
    {
      audioBlob := None;
    }

    /** `handleSubmit`: builds the new issue, then resets the form. */
    method HandleSubmit(user: User, now: int, objectUrl: string -> string) returns (issue: IssueDraft)
      modifies this
      ensures issue == NewIssue(old(formData), old(images), old(audioBlob), old(currentLocation), user, now, objectUrl)
      ensures formData == EmptyForm && images == [] && audioBlob == None && currentLocation == None
      ensures !isSubmitting
      ensures Valid()
    {
      issue := NewIssue(formData, images, audioBlob, currentLocation, user, now, objectUrl);
      isSubmitting := true;
      formData := EmptyForm;
      images := [];
      audioBlob := None;
      currentLocation := None;
      isSubmitting := false;
    }
  }
}
