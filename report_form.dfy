/**
 * The report form of src/components/ReportForm.tsx: a tag list kept free of
 * duplicates, and a submit handler that validates the form, uploads the
 * image if one was chosen, inserts the report, and resets the form. Storage
 * and the report table are parameters and logs; `Date.now()` is a parameter.
 */
module ReportForm {
  import opened Common
  import opened Text

  /** No tag appears twice. */
  predicate NoDup(tags: seq<string>) {
    forall i, j :: 0 <= i < j < |tags| ==> tags[i] != tags[j]
  }

  /** `handleAddTag`: the trimmed input is appended when it is non-blank and not already a tag. */
  function AddedTags(tags: seq<string>, input: string): (r: seq<string>)
    ensures Trim(input) != "" && Trim(input) !in tags ==> r == tags + [Trim(input)]
    ensures Trim(input) == "" || Trim(input) in tags ==> r == tags
    ensures NoDup(tags) ==> NoDup(r)
  {
    var t := Trim(input);
    if t != "" && t !in tags then tags + [t] else tags
  }

  /** `tags.filter(tag => tag !== t)`. */
  function RemoveAll(tags: seq<string>, t: string): (r: seq<string>)
    ensures |r| <= |tags|
    ensures forall x :: x in r <==> x in tags && x != t
  {
    if tags == [] then []
    else (if tags[0] == t then [] else [tags[0]]) + RemoveAll(tags[1..], t)
  }

  /** Removal works piecewise, so the remaining tags keep their order. */
  lemma {:induction false} RemoveAllAppend(a: seq<string>, b: seq<string>, t: string)
    ensures RemoveAll(a + b, t) == RemoveAll(a, t) + RemoveAll(b, t)
  {
    if a == [] {
      assert a + b == b;
    } else {
      assert (a + b)[0] == a[0] && (a + b)[1..] == a[1..] + b;
      RemoveAllAppend(a[1..], b, t);
    }
  }

  /** Removing a tag that is not there changes nothing. */
  lemma {:induction false} RemoveAbsent(tags: seq<string>, t: string)
    requires t !in tags
    ensures RemoveAll(tags, t) == tags
  {
    if tags != [] {
      assert tags[0] != t && t !in tags[1..];
      RemoveAbsent(tags[1..], t);
    }
  }

  /** Removing a tag keeps the list free of duplicates. */
  lemma {:induction false} RemoveKeepsNoDup(tags: seq<string>, t: string)
    requires NoDup(tags)
    ensures NoDup(RemoveAll(tags, t))
  {
    if tags != [] {
      RemoveKeepsNoDup(tags[1..], t);
      assert tags[0] !in tags[1..];
    }
  }

  /** Removing the tag just added gives back the list before the add. */
  lemma RemoveUndoesAdd(tags: seq<string>, input: string)
    requires Trim(input) != "" && Trim(input) !in tags
    ensures RemoveAll(AddedTags(tags, input), Trim(input)) == tags
  {
    var t := Trim(input);
    RemoveAllAppend(tags, [t], t);
    RemoveAbsent(tags, t);
  }

  /** The location picked on the map or from the browser; coordinates are real numbers. */
  datatype Location = Location(lat: real, lng: real, address: string, area: string, city: string, state: string, pincode: string)

  const DefaultLocation := Location(15.4909, 73.8278, "", "", "", "", "")

  /** The row inserted into `reports`. */
  datatype ReportRow = ReportRow(
    userId: string, title: string, description: string, category: string,
    location: Location, tags: seq<string>, imageUrl: Option<string>,
    status: string, priority: string)

  /** The insert payload: the form as it stands, always "open" and "medium". */
  function Payload(userId: string, title: string, description: string, category: string,
                   location: Location, tags: seq<string>, imageUrl: Option<string>): (row: ReportRow)
    ensures row.status == "open" && row.priority == "medium"
    ensures row.userId == userId && row.tags == tags && row.imageUrl == imageUrl
  {
    ReportRow(userId, title, description, category, location, tags, imageUrl, "open", "medium")
  }

  /** `${user.id}/${Date.now()}.${fileExt}`. */
  function UploadPath(userId: string, now: nat, fileName: string): (path: string)
    ensures userId + "/" <= path
  {
    userId + "/" + NatToString(now) + "." + FileExtension(fileName)
  }

  /** The stored file keeps the chosen file's extension. */
  lemma UploadPathExtension(userId: string, now: nat, fileName: string)
    ensures FileExtension(UploadPath(userId, now, fileName)) == FileExtension(fileName)
  {
    ExtensionAfterDot(userId + "/" + NatToString(now), FileExtension(fileName));
  }

  /** The first folder of the upload path is the user's id, when the id holds no '/'. */
  lemma UploadPathParts(userId: string, now: nat, fileName: string)
    requires '/' !in userId
    ensures BeforeFirst(UploadPath(userId, now, fileName), '/') == userId
  {
    var rest := NatToString(now) + "." + FileExtension(fileName);
    assert UploadPath(userId, now, fileName) == userId + ['/'] + rest;
    BeforeFirstOfJoin(userId, '/', rest);
  }

  const FillFieldsToast := "Please fill in all required fields"
  const SignInToast := "You must be logged in to submit a report"
  const SubmittedToast := "Report submitted successfully!"
  const FailedToast := "Failed to submit report. Please try again."

  /** The form's fields, with the storage paths written and the rows sent, in order. */
  datatype FormState = FormState(
    title: string, description: string, category: string, location: Location,
    tags: seq<string>, tagInput: string,
    selectedImage: Option<string>,   // the chosen file's name
    uploads: seq<string>,
    inserts: seq<ReportRow>)

  const InitialForm := FormState("", "", "Infrastructure", DefaultLocation, [], "", None, [], [])

  predicate Complete(f: FormState) {
    Trim(f.title) != "" && Trim(f.description) != ""
  }

  /** The image URL the report carries: the upload's public URL, or none when no file was chosen or the upload failed. */
  function ImageUrl(f: FormState, upload: Result<string, string>): (url: Option<string>)
    ensures url.Some? <==> f.selectedImage.Some? && upload.Ok?
  {
    if f.selectedImage.Some? && upload.Ok? then Some(upload.value) else None
  }

  /** The upload (when a file was chosen) and the insert of a validated submission. */
  function Sent(f: FormState, userId: string, now: nat, upload: Result<string, string>): (r: FormState)
    ensures r.inserts == f.inserts + [Payload(userId, f.title, f.description, f.category, f.location, f.tags, ImageUrl(f, upload))]
    ensures r.uploads == f.uploads + (if f.selectedImage.Some? then [UploadPath(userId, now, f.selectedImage.value)] else [])
    ensures r.(uploads := f.uploads, inserts := f.inserts) == f
  {
    var uploads := f.uploads + (if f.selectedImage.Some? then [UploadPath(userId, now, f.selectedImage.value)] else []);
    var row := Payload(userId, f.title, f.description, f.category, f.location, f.tags, ImageUrl(f, upload));
    f.(uploads := uploads, inserts := f.inserts + [row])
  }

  /** The reset after a successful insert: every field back to its initial value except the tag input. */
  function Reset(f: FormState): (r: FormState)
    ensures r.(tagInput := "", uploads := [], inserts := []) == InitialForm
    ensures r.tagInput == f.tagInput && r.uploads == f.uploads && r.inserts == f.inserts
  {
    InitialForm.(tagInput := f.tagInput, uploads := f.uploads, inserts := f.inserts)
  }

  /** `handleSubmit` on the form state: the new state and the toast shown. */
  function SubmitStep(f: FormState, user: Option<string>, now: nat, upload: Result<string, string>, insertOk: bool)
    : (r: (FormState, string))
    ensures r.0.tagInput == f.tagInput
  {
    if !Complete(f) then (f, FillFieldsToast)
    else if user.None? then (f, SignInToast)
    else
      var sent := Sent(f, user.value, now, upload);
      if insertOk then (Reset(sent), SubmittedToast) else (sent, FailedToast)
  }

  /**
   * A blank title or description, or no user, is rejected with its toast and
   * nothing changes; otherwise the upload (when a file was chosen) and the
   * insert are logged, and the toast says whether the insert succeeded.
   */
  lemma SubmitStepCases(f: FormState, user: Option<string>, now: nat, upload: Result<string, string>, insertOk: bool)
    ensures var r := SubmitStep(f, user, now, upload, insertOk);
      && (!Complete(f) ==> r == (f, FillFieldsToast))
      && (Complete(f) && user.None? ==> r == (f, SignInToast))
      && (Complete(f) && user.Some? ==>
        && r.0.inserts == f.inserts + [Payload(user.value, f.title, f.description, f.category, f.location, f.tags, ImageUrl(f, upload))]
        && r.0.uploads == f.uploads + (if f.selectedImage.Some? then [UploadPath(user.value, now, f.selectedImage.value)] else [])
        && r.1 == (if insertOk then SubmittedToast else FailedToast))
      && (!(Complete(f) && user.Some? && insertOk) ==> r.0.(uploads := f.uploads, inserts := f.inserts) == f)
  {
  }

  /** A rejected submission sends nothing and uploads nothing. */
  lemma RejectedSubmitSendsNothing(f: FormState, user: Option<string>, now: nat, upload: Result<string, string>, insertOk: bool)
    requires !Complete(f) || user.None?
    ensures SubmitStep(f, user, now, upload, insertOk).0 == f
  {
  }

  /** Every row sent is "open" with priority "medium", and a failed upload still sends the row, without an image. */
  lemma SentRowShape(f: FormState, userId: string, now: nat, upload: Result<string, string>, insertOk: bool)
    requires Complete(f)
    ensures var after := SubmitStep(f, Some(userId), now, upload, insertOk).0;
      && |after.inserts| == |f.inserts| + 1
      && after.inserts[|f.inserts|].status == "open" && after.inserts[|f.inserts|].priority == "medium"
      && (upload.Err? ==> after.inserts[|f.inserts|].imageUrl.None?)
  {
  }

  /** An accepted report resets every field but the tag input, and leaves no duplicate tags behind. */
  lemma AcceptedSubmitResets(f: FormState, userId: string, now: nat, upload: Result<string, string>)
    requires Complete(f)
    ensures var after := SubmitStep(f, Some(userId), now, upload, true).0;
      && after.(uploads := [], inserts := []) == InitialForm.(tagInput := f.tagInput)
      && NoDup(after.tags)
  {
  }

  class Form {
    var title: string
    var description: string
    var category: string
    var location: Location
    var tags: seq<string>
    var tagInput: string
    var selectedImage: Option<string>
    var isSubmitting: bool
    var uploads: seq<string>
    var inserts: seq<ReportRow>

    /** The tags are free of duplicates. */
    ghost predicate TagsValid()
      reads this
    {
      NoDup(tags)
    }

    /** Between handlers the tags are free of duplicates and no submission is in flight. */
    ghost predicate Valid()
      reads this
    {
      TagsValid() && !isSubmitting
    }

    function State(): FormState
      reads this
    {
      FormState(title, description, category, location, tags, tagInput, selectedImage, uploads, inserts)
    }

    constructor ()
      ensures Valid() && State() == InitialForm && !isSubmitting
    {
      title := "";
      description := "";
      category := "Infrastructure";
      location := DefaultLocation;
      tags := [];
      tagInput := "";
      selectedImage := None;
      isSubmitting := false;
      uploads := [];
      inserts := [];
    }

    method AddTag()
      requires Valid()
      modifies this`tags, this`tagInput
      ensures Valid()
      ensures tags == AddedTags(old(tags), old(tagInput))
      ensures tagInput == if tags != old(tags) then "" else old(tagInput)
    {
      var t := Trim(tagInput);
      if t != "" && t !in tags {
        tags := tags + [t];
        tagInput := "";
      }
    }

    method RemoveTag(t: string)
      requires Valid()
      modifies this`tags
      ensures Valid()
      ensures tags == RemoveAll(old(tags), t)
    {
      RemoveKeepsNoDup(tags, t);
      tags := RemoveAll(tags, t);
    }

    /** `handleLocationSelect`: a point picked on the map moves the coordinates and keeps the address fields. */
    method SelectLocation(lat: real, lng: real)
      modifies this`location
      ensures location == old(location).(lat := lat, lng := lng)
    {
      location := location.(lat := lat, lng := lng);
    }

    /** `handleImageSelect`: a chosen file replaces the selection; closing the picker without one keeps it. */
    method SelectImage(file: Option<string>)
      modifies this`selectedImage
      ensures selectedImage == if file.Some? then file else old(selectedImage)
    {
      if file.Some? {
        selectedImage := file;
      }
    }

    /** `handleSubmit`; `isSubmitting` is set for the store calls and cleared after them. */
    method Submit(user: Option<string>, now: nat, upload: Result<string, string>, insertOk: bool)
      returns (toast: string)
      requires Valid()
      modifies this`title, this`description, this`category, this`location, this`tags,
               this`selectedImage, this`uploads, this`inserts, this`isSubmitting
      ensures Valid()
      ensures (State(), toast) == SubmitStep(old(State()), user, now, upload, insertOk)
    {
      ghost var before := State();
      if !Complete(State()) {
        toast := FillFieldsToast;
        assert SubmitStep(before, user, now, upload, insertOk) == (before, toast);
        return;
      }
      if user.None? {
        toast := SignInToast;
        assert SubmitStep(before, user, now, upload, insertOk) == (before, toast);
        return;
      }
      isSubmitting := true;
      assert State() == before;
      toast := Send(user.value, now, upload, insertOk);
      ghost var sent := State();
      isSubmitting := false;
      assert State() == sent;
    }

    /** The part of `handleSubmit` after validation: upload, insert, then reset or keep the form. */
    method Send(userId: string, now: nat, upload: Result<string, string>, insertOk: bool) returns (toast: string)
      requires TagsValid() && Complete(State())
      modifies this`title, this`description, this`category, this`location, this`tags,
               this`selectedImage, this`uploads, this`inserts
      ensures TagsValid()
      ensures (State(), toast) == SubmitStep(old(State()), Some(userId), now, upload, insertOk)
    {
      Record(userId, now, upload);
      if insertOk {
        toast := SubmittedToast;
        ResetFields();
      } else {
        toast := FailedToast;
      }
    }

    /** The image upload (when a file was chosen) and the report insert. */
    method Record(userId: string, now: nat, upload: Result<string, string>)
      requires TagsValid()
      modifies this`uploads, this`inserts
      ensures TagsValid()
      ensures State() == Sent(old(State()), userId, now, upload)
    {
      var imageUrl: Option<string> := None;
      if selectedImage.Some? {
        uploads := uploads + [UploadPath(userId, now, selectedImage.value)];
        if upload.Ok? {
          imageUrl := Some(upload.value);
        }
      }
      inserts := inserts + [Payload(userId, title, description, category, location, tags, imageUrl)];
    }

    /** The reset after a successful insert. */
    method ResetFields()
      modifies this`title, this`description, this`category, this`location, this`tags, this`selectedImage
      ensures TagsValid()
      ensures State() == Reset(old(State()))
    {
      title := "";
      description := "";
      category := "Infrastructure";
      location := DefaultLocation;
      tags := [];
      selectedImage := None;
    }
  }
}
