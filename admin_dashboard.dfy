/**
 * The administrator's dashboard of src/components/AdminDashboard.tsx: how
 * fetched profiles and reports are normalised, the four stat cards, the user
 * search, and the role and status changes applied to the user list.
 */
module AdminDashboard {
  import opened Common
  import opened Text
  import opened ReportStats

  /** A `profiles` row as selected: a missing or null name or role is "". */
  datatype ProfileRow = ProfileRow(id: string, email: string, fullName: string, role: string)

  /** A user as the dashboard keeps it. */
  datatype AdminUser = AdminUser(id: string, name: string, email: string, role: string, status: string)

  /** The `fetchUsers` mapping: name "Unknown" and role "citizen" when missing, status always "active". */
  function NormalizeUser(row: ProfileRow): (u: AdminUser)
    ensures u.id == row.id && u.email == row.email && u.status == "active"
    ensures u.name == (if row.fullName == "" then "Unknown" else row.fullName)
    ensures u.role == (if row.role == "" then "citizen" else row.role)
  {
    AdminUser(row.id, if row.fullName == "" then "Unknown" else row.fullName, row.email,
              if row.role == "" then "citizen" else row.role, "active")
  }

  /** `data?.map(...) || []`: a fetch with no data gives an empty list. */
  function NormalizeUsers(rows: Option<seq<ProfileRow>>): (us: seq<AdminUser>)
    ensures rows.None? ==> us == []
    ensures rows.Some? ==> |us| == |rows.value| && forall k :: 0 <= k < |us| ==> us[k] == NormalizeUser(rows.value[k])
  {
    if rows.None? then [] else seq(|rows.value|, k requires 0 <= k < |rows.value| => NormalizeUser(rows.value[k]))
  }

  /** Every normalised user has a name, a role and the status "active". */
  lemma NormalizedUsersComplete(rows: seq<ProfileRow>)
    ensures forall u :: u in NormalizeUsers(Some(rows)) ==> u.name != "" && u.role != "" && u.status == "active"
  {
    var us := NormalizeUsers(Some(rows));
    forall u | u in us ensures u.name != "" && u.role != "" && u.status == "active" {
      var k :| 0 <= k < |us| && us[k] == u;
      assert u == NormalizeUser(rows[k]);
    }
  }

  /** The report fields the dashboard keeps; a missing priority is "". */
  datatype ReportRow = ReportRow(id: string, title: string, status: string, priority: string, userId: string)

  /** The author's `full_name` and `email`, each "" when missing. */
  datatype Author = Author(fullName: string, email: string)

  datatype AdminReport = AdminReport(id: string, title: string, status: string, priority: string,
                                     userName: string, userEmail: string)

  /** The `fetchReports` mapping: priority "medium", author "Unknown" and email "" when missing. */
  function NormalizeReport(r: ReportRow, author: Option<Author>): (a: AdminReport)
    ensures a.id == r.id && a.status == r.status
    ensures a.priority == (if r.priority == "" then "medium" else r.priority)
    ensures a.userName == (if author.Some? && author.value.fullName != "" then author.value.fullName else "Unknown")
    ensures a.userEmail == (if author.Some? then author.value.email else "")
  {
    AdminReport(r.id, r.title, r.status, if r.priority == "" then "medium" else r.priority,
                if author.Some? && author.value.fullName != "" then author.value.fullName else "Unknown",
                if author.Some? then author.value.email else "")
  }

  /** `(reportsData || []).map(...)`, each report with its author's profile when one was found. */
  function NormalizeReports(rows: Option<seq<(ReportRow, Option<Author>)>>): (rs: seq<AdminReport>)
    ensures rows.None? ==> rs == []
    ensures rows.Some? ==> |rs| == |rows.value|
    ensures rows.Some? ==> forall k :: 0 <= k < |rs| ==> rs[k] == NormalizeReport(rows.value[k].0, rows.value[k].1)
  {
    if rows.None? then []
    else seq(|rows.value|, k requires 0 <= k < |rows.value| => NormalizeReport(rows.value[k].0, rows.value[k].1))
  }

  /** Every normalised report has a priority and an author name. */
  lemma NormalizedReportsComplete(rows: seq<(ReportRow, Option<Author>)>)
    ensures forall a :: a in NormalizeReports(Some(rows)) ==> a.priority != "" && a.userName != ""
  {
    var rs := NormalizeReports(Some(rows));
    forall a | a in rs ensures a.priority != "" && a.userName != "" {
      var k :| 0 <= k < |rs| && rs[k] == a;
      assert a == NormalizeReport(rows[k].0, rows[k].1);
    }
  }

  // ---------------------------------------------------------------------------
  // Stat cards

  predicate IsOfficial(u: AdminUser) {
    u.role == "official" || u.role == "admin"
  }

  /** "Active Officials": the users whose role is official or admin. */
  function ActiveOfficials(users: seq<AdminUser>): (n: nat)
    ensures n <= |users|
    ensures n == 0 <==> forall u :: u in users ==> !IsOfficial(u)
  {
    if users == [] then 0
    else (if IsOfficial(users[0]) then 1 else 0) + ActiveOfficials(users[1..])
  }

  function Statuses(reports: seq<AdminReport>): (ss: seq<string>)
    ensures |ss| == |reports| && forall k :: 0 <= k < |ss| ==> ss[k] == reports[k].status
  {
    seq(|reports|, k requires 0 <= k < |reports| => reports[k].status)
  }

  /** The "Resolution Rate" card: the rounded percentage with a "%" sign, or "0%" when there are no reports. */
  function ResolutionRateText(reports: seq<AdminReport>): (text: string)
    ensures reports == [] ==> text == "0%"
    ensures reports != [] ==>
      text == NatToString(RoundedPercent(CountStatus(Statuses(reports), "resolved"), |reports|)) + "%"
  {
    var ss := Statuses(reports);
    if |reports| > 0 then NatToString(RoundedPercent(CountStatus(ss, "resolved"), |reports|)) + "%" else "0%"
  }

  /**
   * The card reads back as the same number the citizen dashboard computes
   * for the same statuses, 0 included.
   */
  lemma RateTextMatchesRate(reports: seq<AdminReport>)
    ensures var text := ResolutionRateText(reports);
      var ss := Statuses(reports);
      && text[|text| - 1] == '%'
      && ParseNat(text[..|text| - 1]) == ResolutionRate(CountStatus(ss, "resolved"), |ss|)
  {
    var text := ResolutionRateText(reports);
    var ss := Statuses(reports);
    var rate := ResolutionRate(CountStatus(ss, "resolved"), |ss|);
    assert text == NatToString(rate) + "%" by {
      if reports == [] {
        assert NatToString(0) == "0";
      }
    }
    assert text[..|text| - 1] == NatToString(rate);
    ParseNatToString(rate);
  }

  // ---------------------------------------------------------------------------
  // Search

  /** A user matches when the lowercased name or email contains the lowercased term. */
  predicate Matches(u: AdminUser, term: string) {
    Contains(ToLower(u.name), ToLower(term)) || Contains(ToLower(u.email), ToLower(term))
  }

  /** The rows of the users table. */
  function Search(users: seq<AdminUser>, term: string): (shown: seq<AdminUser>)
    ensures |shown| <= |users|
    ensures forall u :: u in shown <==> u in users && Matches(u, term)
  {
    if users == [] then []
    else (if Matches(users[0], term) then [users[0]] else []) + Search(users[1..], term)
  }

  /** An empty search term lists every user, in order. */
  lemma {:induction false} EmptyTermKeepsAll(users: seq<AdminUser>)
    ensures Search(users, "") == users
  {
    if users != [] {
      assert OccursAt(ToLower(users[0].name), ToLower(""), 0);
      EmptyTermKeepsAll(users[1..]);
    }
  }

  /** The search ignores letter case in the term. */
  lemma SearchIgnoresTermCase(users: seq<AdminUser>, term: string)
    ensures Search(users, ToUpper(term)) == Search(users, term)
  {
    ToLowerToUpper(term);
    SearchSameLowered(users, ToUpper(term), term);
  }

  lemma {:induction false} SearchSameLowered(users: seq<AdminUser>, a: string, b: string)
    requires ToLower(a) == ToLower(b)
    ensures Search(users, a) == Search(users, b)
  {
    if users != [] {
      SearchSameLowered(users[1..], a, b);
    }
  }

  // ---------------------------------------------------------------------------
  // Role and status changes

  /** `users.map(u => u.id === userId ? { ...u, role } : u)`. */
  function WithRole(users: seq<AdminUser>, userId: string, role: string): (r: seq<AdminUser>)
    ensures |r| == |users|
    ensures forall k :: 0 <= k < |r| ==>
      r[k] == if users[k].id == userId then users[k].(role := role) else users[k]
  {
    seq(|users|, k requires 0 <= k < |users| => if users[k].id == userId then users[k].(role := role) else users[k])
  }

  /** `users.map(u => u.id === userId ? { ...u, status } : u)`. */
  function WithStatus(users: seq<AdminUser>, userId: string, status: string): (r: seq<AdminUser>)
    ensures |r| == |users|
    ensures forall k :: 0 <= k < |r| ==>
      r[k] == if users[k].id == userId then users[k].(status := status) else users[k]
  {
    seq(|users|, k requires 0 <= k < |users| => if users[k].id == userId then users[k].(status := status) else users[k])
  }

  /** A role change touches only the matching users' roles: every other field, and every other user, stays. */
  lemma RoleChangeIsLocal(users: seq<AdminUser>, userId: string, role: string)
    ensures var r := WithRole(users, userId, role);
      forall k :: 0 <= k < |users| ==>
        r[k].(role := users[k].role) == users[k] && (r[k].role != users[k].role ==> users[k].id == userId)
  {
  }

  /** Setting the same role twice is the same as setting it once. */
  lemma RoleChangeIdempotent(users: seq<AdminUser>, userId: string, role: string)
    ensures WithRole(WithRole(users, userId, role), userId, role) == WithRole(users, userId, role)
  {
  }

  /** The number of users with the given id. */
  function CountId(users: seq<AdminUser>, userId: string): (n: nat)
    ensures n <= |users|
    ensures n == 0 <==> forall k :: 0 <= k < |users| ==> users[k].id != userId
  {
    if users == [] then 0
    else (if users[0].id == userId then 1 else 0) + CountId(users[1..], userId)
  }

  /** Promoting citizens to official adds one active official per user promoted. */
  lemma {:induction false} PromotionCountsOfficial(users: seq<AdminUser>, userId: string)
    requires forall k :: 0 <= k < |users| && users[k].id == userId ==> users[k].role == "citizen"
    ensures ActiveOfficials(WithRole(users, userId, "official")) == ActiveOfficials(users) + CountId(users, userId)
  {
    if users != [] {
      var r := WithRole(users, userId, "official");
      assert r[1..] == WithRole(users[1..], userId, "official");
      PromotionCountsOfficial(users[1..], userId);
    }
  }

  const RoleFailedToast := "Failed to update role"

  class Admin {
    var users: seq<AdminUser>
    var reports: seq<AdminReport>
    var searchTerm: string

    constructor ()
      ensures users == [] && reports == [] && searchTerm == ""
    {
      users := [];
      reports := [];
      searchTerm := "";
    }

    /** `fetchUsers`: a failed query keeps the list and shows "Failed to load users". */
    method FetchUsers(rows: Result<Option<seq<ProfileRow>>, string>) returns (toast: Option<string>)
      modifies this`users
      ensures rows.Ok? ==> users == NormalizeUsers(rows.value) && toast.None?
      ensures rows.Err? ==> users == old(users) && toast == Some("Failed to load users")
    {
      if rows.Err? {
        toast := Some("Failed to load users");
        return;
      }
      users := NormalizeUsers(rows.value);
      toast := None;
    }

    /** `fetchReports`: a failed query keeps the list and shows "Failed to load reports". */
    method FetchReports(rows: Result<Option<seq<(ReportRow, Option<Author>)>>, string>) returns (toast: Option<string>)
      modifies this`reports
      ensures rows.Ok? ==> reports == NormalizeReports(rows.value) && toast.None?
      ensures rows.Err? ==> reports == old(reports) && toast == Some("Failed to load reports")
    {
      if rows.Err? {
        toast := Some("Failed to load reports");
        return;
      }
      reports := NormalizeReports(rows.value);
      toast := None;
    }

    /** Typing in the search box. */
    method SetSearchTerm(term: string)
      modifies this`searchTerm
      ensures searchTerm == term
    {
      searchTerm := term;
    }

    /** `handleRoleChange`: the list changes only after the store accepts the update. */
    method HandleRoleChange(userId: string, newRole: string, storeOk: bool) returns (toast: string)
      modifies this`users
      ensures users == if storeOk then WithRole(old(users), userId, newRole) else old(users)
      ensures toast == if storeOk then "Role updated to " + newRole else RoleFailedToast
    {
      if !storeOk {
        toast := RoleFailedToast;
        return;
      }
      var updated: seq<AdminUser> := [];
      var i := 0;
      while i < |users|
        invariant 0 <= i <= |users|
        invariant updated == WithRole(users[..i], userId, newRole)
      {
        var u := users[i];
        updated := updated + [if u.id == userId then u.(role := newRole) else u];
        i := i + 1;
      }
      assert users[..i] == users;
      users := updated;
      toast := "Role updated to " + newRole;
    }

    /** `handleStatusChange`: local only, no store call. */
    method HandleStatusChange(userId: string, newStatus: string)
      modifies this`users
      ensures users == WithStatus(old(users), userId, newStatus)
    {
      var updated: seq<AdminUser> := [];
      var i := 0;
      while i < |users|
        invariant 0 <= i <= |users|
        invariant updated == WithStatus(users[..i], userId, newStatus)
      {
        var u := users[i];
        updated := updated + [if u.id == userId then u.(status := newStatus) else u];
        i := i + 1;
      }
      assert users[..i] == users;
      users := updated;
    }

    /** The users table as shown. */
    function Shown(): (shown: seq<AdminUser>)
      reads this
      ensures forall u :: u in shown <==> u in users && Matches(u, searchTerm)
    {
      Search(users, searchTerm)
    }
  }
}
