/**
 * The profile page of src/components/UserProfile.tsx: loading the profile
 * with its field defaults, the report statistics, the avatar letter, heading
 * and subtitle, and saving. Queries are parameters giving their outcome.
 */
module UserProfile {
  import opened Common
  import opened Text
  import opened ReportStats

  /** The editable profile fields. */
  datatype ProfileData = ProfileData(
    fullName: string, displayName: string, email: string, phone: string,
    city: string, state: string, organization: string, bio: string)

  /** The initial form: every field "", except the account's email when there is one. */
  function InitialProfile(accountEmail: Option<string>): (p: ProfileData)
    ensures p.email == accountEmail.GetOr("")
    ensures p.(email := "") == ProfileData("", "", "", "", "", "", "", "")
  {
    ProfileData("", "", accountEmail.GetOr(""), "", "", "", "", "")
  }

  /** A `profiles` row; a missing or null column is "". */
  datatype ProfileRow = ProfileRow(
    fullName: string, displayName: string, email: string, phone: string,
    city: string, state: string, organization: string, bio: string)

  /** The outcome of the profile query: a row, no row (including the "no rows" error PGRST116), or another error. */
  datatype ProfileFetch = Row(row: ProfileRow) | NoRow | FetchError

  /** `fetchProfile`: a row's fields with "" for missing ones, and the account email when the row has none. */
  function LoadProfile(prev: ProfileData, fetched: ProfileFetch, accountEmail: Option<string>): (p: ProfileData)
    ensures fetched.FetchError? ==> p == prev
    ensures fetched.NoRow? ==> p == prev.(email := accountEmail.GetOr(""))
    ensures fetched.Row? ==>
      && p.fullName == fetched.row.fullName && p.displayName == fetched.row.displayName
      && p.bio == fetched.row.bio && p.phone == fetched.row.phone
      && p.city == fetched.row.city && p.state == fetched.row.state
      && p.organization == fetched.row.organization
      && p.email == (if fetched.row.email != "" then fetched.row.email else accountEmail.GetOr(""))
  {
    match fetched
    case FetchError => prev
    case NoRow => prev.(email := accountEmail.GetOr(""))
    case Row(r) =>
      ProfileData(r.fullName, r.displayName, if r.email != "" then r.email else accountEmail.GetOr(""),
                  r.phone, r.city, r.state, r.organization, r.bio)
  }

  /** Once loaded, the email is empty only when neither the row nor the account has one. */
  lemma LoadedEmail(prev: ProfileData, fetched: ProfileFetch, accountEmail: Option<string>)
    requires !fetched.FetchError?
    ensures LoadProfile(prev, fetched, accountEmail).email == "" <==>
      (fetched.NoRow? || fetched.row.email == "") && (accountEmail.None? || accountEmail.value == "")
  {
  }

  // ---------------------------------------------------------------------------
  // Statistics

  datatype Stats = Stats(totalReports: nat, resolvedReports: nat, upvotes: int)

  /** `sum + (r.upvotes || 0)` over the rows: a missing, null or zero count adds nothing. */
  function UpvoteSum(counts: seq<Option<int>>): (total: int)
    ensures (forall k :: 0 <= k < |counts| ==> counts[k].None? || counts[k].value >= 0) ==> total >= 0
  {
    if counts == [] then 0 else UpvoteSum(counts[..|counts| - 1]) + counts[|counts| - 1].GetOr(0)
  }

  /** The sum splits over the rows. */
  lemma {:induction false} UpvoteSumAppend(a: seq<Option<int>>, b: seq<Option<int>>)
    ensures UpvoteSum(a + b) == UpvoteSum(a) + UpvoteSum(b)
    decreases |b|
  {
    if b == [] {
      assert a + b == a;
    } else {
      assert (a + b)[..|a + b| - 1] == a + b[..|b| - 1];
      UpvoteSumAppend(a, b[..|b| - 1]);
    }
  }

  /** Rows without a count add nothing to the total. */
  lemma {:induction false} MissingCountsAddNothing(counts: seq<Option<int>>)
    requires forall k :: 0 <= k < |counts| ==> counts[k].None?
    ensures UpvoteSum(counts) == 0
  {
    if counts != [] {
      MissingCountsAddNothing(counts[..|counts| - 1]);
    }
  }

  /** `fetchUserStats`: either query failing keeps the previous stats; missing data counts as none. */
  function ComputeStats(prev: Stats, statuses: Result<Option<seq<string>>, string>,
                        counts: Result<Option<seq<Option<int>>>, string>): (s: Stats)
    ensures statuses.Err? || counts.Err? ==> s == prev
    ensures statuses.Ok? && counts.Ok? ==>
      var ss := statuses.value.GetOr([]);
      && s.totalReports == |ss|
      && s.resolvedReports == CountStatus(ss, "resolved")
      && s.resolvedReports <= s.totalReports
      && s.upvotes == UpvoteSum(counts.value.GetOr([]))
  {
    if statuses.Err? || counts.Err? then prev
    else
      var ss := statuses.value.GetOr([]);
      Stats(|ss|, CountStatus(ss, "resolved"), UpvoteSum(counts.value.GetOr([])))
  }

  // ---------------------------------------------------------------------------
  // The header

  /** The avatar: the first character of the full name, else of the email, upper-cased; "U" with neither. */
  function AvatarLetter(p: ProfileData): (c: char)
    ensures p.fullName != "" ==> c == UpperChar(p.fullName[0])
    ensures p.fullName == "" && p.email != "" ==> c == UpperChar(p.email[0])
    ensures p.fullName == "" && p.email == "" ==> c == 'U'
    ensures !('a' <= c <= 'z')
  {
    if p.fullName != "" then UpperChar(p.fullName[0])
    else if p.email != "" then UpperChar(p.email[0])
    else 'U'
  }

  /** The heading: `fullName || email || "User"`. */
  function Heading(p: ProfileData): (h: string)
    ensures h != ""
    ensures p.fullName != "" ==> h == p.fullName
    ensures p.fullName == "" && p.email != "" ==> h == p.email
    ensures p.fullName == "" && p.email == "" ==> h == "User"
  {
    if p.fullName != "" then p.fullName else if p.email != "" then p.email else "User"
  }

  /** The avatar letter is the heading's first character, upper-cased, unless the heading is the "User" placeholder. */
  lemma AvatarMatchesHeading(p: ProfileData)
    requires p.fullName != "" || p.email != ""
    ensures AvatarLetter(p) == UpperChar(Heading(p)[0])
  {
  }

  /** The subtitle: "@" and the display name, or the email when there is no display name. */
  function Subtitle(p: ProfileData): (t: string)
    ensures p.displayName != "" ==> t == "@" + p.displayName && t[0] == '@'
    ensures p.displayName == "" ==> t == p.email
  {
    if p.displayName != "" then "@" + p.displayName else p.email
  }

  // ---------------------------------------------------------------------------
  // Saving

  /** The `profiles` upsert: the account's id and email, and every form field but the email. */
  datatype Upsert = Upsert(
    id: string, email: Option<string>, fullName: string, displayName: string, phone: string,
    city: string, state: string, organization: string, bio: string)

  /** The row `handleSave` writes: the form's email field is not sent, the account's is. */
  function SaveRow(account: Account, p: ProfileData): (u: Upsert)
    ensures u.id == account.id && u.email == account.email
    ensures ProfileData(u.fullName, u.displayName, p.email, u.phone, u.city, u.state, u.organization, u.bio) == p
  {
    Upsert(account.id, account.email, p.fullName, p.displayName, p.phone, p.city, p.state, p.organization, p.bio)
  }

  /** Saving and loading the saved row back gives the form that was saved, with the account's email. */
  lemma SaveThenLoad(account: Account, p: ProfileData, prev: ProfileData)
    requires account.email.Some? && account.email.value != ""
    ensures var u := SaveRow(account, p);
      var row := ProfileRow(u.fullName, u.displayName, u.email.value, u.phone, u.city, u.state, u.organization, u.bio);
      LoadProfile(prev, Row(row), account.email) == p.(email := account.email.value)
  {
  }

  datatype Account = Account(id: string, email: Option<string>)

  class ProfilePage {
    var isEditing: bool
    var loading: bool
    var stats: Stats
    var profileData: ProfileData
    var upserts: seq<Upsert>

    constructor (account: Option<Account>)
      ensures !isEditing && loading && stats == Stats(0, 0, 0) && upserts == []
      ensures profileData == InitialProfile(if account.Some? then account.value.email else None)
    {
      isEditing := false;
      loading := true;
      stats := Stats(0, 0, 0);
      profileData := InitialProfile(if account.Some? then account.value.email else None);
      upserts := [];
    }

    /** `fetchProfile`. */
    method FetchProfile(account: Account, fetched: ProfileFetch)
      modifies this`profileData, this`loading
      ensures profileData == LoadProfile(old(profileData), fetched, account.email) && !loading
    {
      match fetched {
        case FetchError =>
        case NoRow =>
          profileData := profileData.(email := account.email.GetOr(""));
        case Row(r) =>
          profileData := ProfileData(r.fullName, r.displayName, if r.email != "" then r.email else account.email.GetOr(""),
                                     r.phone, r.city, r.state, r.organization, r.bio);
      }
      loading := false;
    }

    /** `fetchUserStats`: the reduce over the upvote counts is a loop. */
    method FetchUserStats(statuses: Result<Option<seq<string>>, string>,
                          counts: Result<Option<seq<Option<int>>>, string>)
      modifies this`stats
      ensures stats == ComputeStats(old(stats), statuses, counts)
    {
      if statuses.Err? || counts.Err? {
        return;
      }
      var ss := statuses.value.GetOr([]);
      var cs := counts.value.GetOr([]);
      var sum := 0;
      var i := 0;
      while i < |cs|
        invariant 0 <= i <= |cs|
        invariant sum == UpvoteSum(cs[..i])
      {
        assert cs[..i + 1][..i] == cs[..i];
        sum := sum + cs[i].GetOr(0);
        i := i + 1;
      }
      assert cs[..i] == cs;
      stats := Stats(|ss|, CountStatus(ss, "resolved"), sum);
    }

    /** "Edit Profile". */
    method StartEditing()
      modifies this`isEditing
      ensures isEditing
    {
      isEditing := true;
    }

    /** `handleSave`: nothing without an account; the editor closes only when the upsert succeeds. */
    method HandleSave(account: Option<Account>, storeOk: bool) returns (toast: Option<string>)
      modifies this`isEditing, this`upserts
      ensures account.None? ==> upserts == old(upserts) && isEditing == old(isEditing) && toast.None?
      ensures account.Some? ==> upserts == old(upserts) + [SaveRow(account.value, profileData)]
      ensures account.Some? ==> isEditing == (old(isEditing) && !storeOk)
      ensures account.Some? ==> toast == Some(if storeOk then "Profile updated successfully!" else "Failed to update profile")
    {
      if account.None? {
        toast := None;
        return;
      }
      upserts := upserts + [SaveRow(account.value, profileData)];
      if storeOk {
        toast := Some("Profile updated successfully!");
        isEditing := false;
      } else {
        toast := Some("Failed to update profile");
      }
    }
  }
}
