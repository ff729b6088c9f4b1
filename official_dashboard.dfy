/**
 * The official's dashboard of src/components/OfficialDashboard.tsx: the
 * department filter's option values, and the assignment and comment forms
 * with their validation and resets. Neither handler calls a store; each
 * only validates, shows a toast and resets fields. The department filter is
 * held but never applied to the (fixed) report list.
 */
module OfficialDashboard {
  import opened Common
  import opened Text

  const Departments: seq<string> := [
    "All Departments", "Public Works", "Sanitation", "Transportation",
    "Parks & Recreation", "Utilities", "Public Safety"]

  /** `s.replace(/ /g, "-")`. */
  function SpacesToDashes(s: string): (r: string)
    ensures |r| == |s|
    ensures forall k :: 0 <= k < |s| ==> r[k] == if s[k] == ' ' then '-' else s[k]
  {
    seq(|s|, k requires 0 <= k < |s| => if s[k] == ' ' then '-' else s[k])
  }

  /** `dept.toLowerCase().replace(/ /g, "-")`: the option value of a department. */
  function DeptSlug(dept: string): (slug: string)
    ensures |slug| == |dept|
    ensures forall k :: 0 <= k < |dept| ==> slug[k] == if dept[k] == ' ' then '-' else LowerChar(dept[k])
    ensures ' ' !in slug
    ensures forall k :: 0 <= k < |slug| ==> !('A' <= slug[k] <= 'Z')
  {
    SpacesToDashes(ToLower(dept))
  }

  /** The option value of "Public Works". */
  lemma PublicWorksSlug()
    ensures DeptSlug("Public Works") == "public-works"
  {
    var s := DeptSlug("Public Works");
    assert s[0] == 'p' && s[6] == '-' && s[7] == 'w';
  }

  /** The filter starts at "all", which is the value of no option: the select shows a value it does not offer. */
  lemma InitialFilterMatchesNoOption()
    ensures forall d :: d in Departments ==> DeptSlug(d) != "all"
  {
    forall d | d in Departments ensures DeptSlug(d) != "all" {
      assert |d| > 3;
    }
  }

  /** Slugs of names that differ in length never collide. */
  lemma SlugsOfDifferentLengthsDiffer(a: string, b: string)
    requires |a| != |b|
    ensures DeptSlug(a) != DeptSlug(b)
  {
  }

  /** Two names that differ at a letter both write in lower case keep their slugs apart. */
  lemma SlugSeparatesLowercaseLetters(a: string, b: string, k: nat)
    requires |a| == |b| && k < |a|
    requires 'a' <= a[k] <= 'z' && 'a' <= b[k] <= 'z' && a[k] != b[k]
    ensures DeptSlug(a) != DeptSlug(b)
  {
    assert DeptSlug(a)[k] == a[k] && DeptSlug(b)[k] == b[k];
  }

  /** The departments a report can be assigned to: the list without "All Departments". */
  function AssignmentChoices(): (choices: seq<string>)
    ensures |choices| == |Departments| - 1
    ensures forall k :: 0 <= k < |choices| ==> choices[k] == Departments[k + 1]
    ensures "All Departments" !in choices
  {
    Departments[1..]
  }

  /** The assignment form's fields. */
  datatype AssignmentData = AssignmentData(department: string, responseTimeline: string, officialComment: string)

  const EmptyAssignment := AssignmentData("", "", "")

  const FillFieldsToast := "Please fill in all required fields"
  const AssignedToast := "Report assigned successfully! (Backend integration pending)"
  const EnterCommentToast := "Please enter a comment"
  const CommentAddedToast := "Official comment added! (Backend integration pending)"

  /** `handleAssignReport` on the open editor and the form: rejected when either required field is the empty string. */
  function Assign(selected: Option<string>, data: AssignmentData): (r: (Option<string>, AssignmentData, string))
    ensures data.department == "" || data.responseTimeline == "" ==> r == (selected, data, FillFieldsToast)
    ensures data.department != "" && data.responseTimeline != "" ==> r == (None, EmptyAssignment, AssignedToast)
  {
    if data.department == "" || data.responseTimeline == "" then (selected, data, FillFieldsToast)
    else (None, EmptyAssignment, AssignedToast)
  }

  /**
   * Only the empty string is refused: every other timeline is accepted,
   * white space only included, although the same text as a comment is
   * refused as blank.
   */
  lemma BlankTimelineAccepted(selected: Option<string>, department: string, timeline: string, comment: string)
    requires department != "" && timeline != ""
    ensures Assign(selected, AssignmentData(department, timeline, comment)).2 == AssignedToast
    ensures IsBlank(timeline) ==> AddComment(AssignmentData(department, timeline, timeline)).1 == EnterCommentToast
  {
  }

  /** `handleAddComment`: rejected when the comment is blank after trimming; success clears only the comment. */
  function AddComment(data: AssignmentData): (r: (AssignmentData, string))
    ensures IsBlank(data.officialComment) ==> r == (data, EnterCommentToast)
    ensures !IsBlank(data.officialComment) ==> r == (data.(officialComment := ""), CommentAddedToast)
  {
    if Trim(data.officialComment) == "" then (data, EnterCommentToast)
    else (data.(officialComment := ""), CommentAddedToast)
  }

  /** A comment, accepted or not, never touches the department or the timeline. */
  lemma CommentKeepsAssignmentFields(data: AssignmentData)
    ensures AddComment(data).0.department == data.department
    ensures AddComment(data).0.responseTimeline == data.responseTimeline
  {
  }

  /** A second comment right after a successful one is always rejected: the comment field is empty. */
  lemma SecondCommentRejected(data: AssignmentData)
    requires !IsBlank(data.officialComment)
    ensures AddComment(AddComment(data).0).1 == EnterCommentToast
  {
    assert IsBlank("");
  }

  class OfficialView {
    var selectedDepartment: string
    var selectedReport: Option<string>
    var data: AssignmentData

    constructor ()
      ensures selectedDepartment == "all" && selectedReport.None? && data == EmptyAssignment
    {
      selectedDepartment := "all";
      selectedReport := None;
      data := EmptyAssignment;
    }

    /** Choosing a filter option. */
    method SelectDepartment(value: string)
      modifies this`selectedDepartment
      ensures selectedDepartment == value
    {
      selectedDepartment := value;
    }

    /** "Assign & Respond" or "Update" opens the editor of a report; "Cancel" closes it. */
    method OpenEditor(reportId: Option<string>)
      modifies this`selectedReport
      ensures selectedReport == reportId
    {
      selectedReport := reportId;
    }

    /** Typing in one of the three fields. */
    method EditField(department: Option<string>, timeline: Option<string>, comment: Option<string>)
      modifies this`data
      ensures data == AssignmentData(department.GetOr(old(data).department), timeline.GetOr(old(data).responseTimeline),
                                     comment.GetOr(old(data).officialComment))
    {
      data := AssignmentData(department.GetOr(data.department), timeline.GetOr(data.responseTimeline),
                             comment.GetOr(data.officialComment));
    }

    /** `handleAssignReport`. */
    method HandleAssignReport(reportId: string) returns (toast: string)
      modifies this`selectedReport, this`data
      ensures (selectedReport, data, toast) == Assign(old(selectedReport), old(data))
    {
      if data.department == "" || data.responseTimeline == "" {
        toast := FillFieldsToast;
        return;
      }
      toast := AssignedToast;
      selectedReport := None;
      data := EmptyAssignment;
    }

    /** `handleAddComment`. */
    method HandleAddComment(reportId: string) returns (toast: string)
      modifies this`data
      ensures (data, toast) == AddComment(old(data))
    {
      if Trim(data.officialComment) == "" {
        toast := EnterCommentToast;
        return;
      }
      toast := CommentAddedToast;
      data := data.(officialComment := "");
    }
  }
}
