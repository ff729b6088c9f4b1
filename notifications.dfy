/**
 * The notification service of src/lib/notifications.ts: browser-permission
 * handling, the push surface (native notification or toast fallback), the
 * preference defaults, and the two dispatchers `notifyStatusChange` and
 * `notifyNewComment`.
 *
 * A dispatcher runs its steps in the order the source does: load the
 * preferences, maybe show a push, maybe "send" an email, then insert one
 * unread record. Everything runs inside one try/catch, so a step that throws
 * ends the call silently and skips every later step, the insert included.
 * The store and the browser are outside the model: their answers are the
 * fields of an `Environment`, and what a call does is the sequence of
 * observable `Effect`s it appends.
 */
module Notifications {
  import opened Common
  import opened Text

  /** The six flags of a `notification_preferences` row. */
  datatype Preferences = Preferences(
    emailEnabled: bool,
    pushEnabled: bool,
    emailOnStatusChange: bool,
    emailOnComment: bool,
    pushOnStatusChange: bool,
    pushOnComment: bool)

  const AllEnabled := Preferences(true, true, true, true, true, true)

  /** What the preference query for one user comes back with. */
  datatype PreferenceLookup =
    | Row(prefs: Preferences)   // the stored row
    | NoRow                     // no row for this user (store code PGRST116)
    | QueryError(code: string)  // any other store error; the data part is null
    | QueryThrew                // the call itself rejected

  /**
   * `getNotificationPreferences`: the stored row, or every flag on when there
   * is no row, when the store reports an error, or when the call throws.
   */
  function LoadedPreferences(lookup: PreferenceLookup): (p: Preferences)
    ensures lookup.Row? ==> p == lookup.prefs
    ensures !lookup.Row? ==> p == AllEnabled
  {
    match lookup
    case Row(prefs) => prefs
    case _ => AllEnabled
  }

  /** The browser's notification capability: absent, or one of its three permission states. */
  datatype Permission = Unsupported | Default | Granted | Denied

  datatype PermissionRequest = PermissionRequest(prompted: bool, granted: bool)

  /**
   * `requestNotificationPermission`: the browser is asked only from the
   * default state; `promptGrants` is the user's answer to that prompt.
   */
  function RequestPermission(p: Permission, promptGrants: bool): (r: PermissionRequest)
    ensures r.prompted <==> p == Default
    ensures r.granted <==> p == Granted || (p == Default && promptGrants)
  {
    match p
    case Unsupported => PermissionRequest(false, false)
    case Granted => PermissionRequest(false, true)
    case Denied => PermissionRequest(false, false)
    case Default => PermissionRequest(true, promptGrants)
  }

  /** Where a push ends up on screen. */
  datatype Surface =
    | NoSurface                                      // unsupported browser: a console warning only
    | Native(title: string, body: string, tag: string)
    | Toast(title: string, description: string)

  /** `showPushNotification`: native when permission is granted, otherwise a toast with the same text. */
  function ShowPush(p: Permission, title: string, body: string, tag: string): (s: Surface)
    ensures s.Native? <==> p == Granted
    ensures s.NoSurface? <==> p == Unsupported
    ensures s.Native? ==> s == Native(title, body, tag)
    ensures s.Toast? ==> s == Toast(title, body)
  {
    match p
    case Unsupported => NoSurface
    case Granted => Native(title, body, tag)
    case _ => Toast(title, body)
  }

  /** A supported browser always shows the push's title and body, natively or as a toast. */
  lemma PushTextReachesUser(p: Permission, title: string, body: string, tag: string)
    requires p != Unsupported
    ensures ShowPush(p, title, body, tag) == Native(title, body, tag)
         || ShowPush(p, title, body, tag) == Toast(title, body)
  {
  }

  datatype Event =
    | StatusChange(reportId: string, reportTitle: string, oldStatus: string, newStatus: string, userId: string)
    | NewComment(reportId: string, reportTitle: string, commenterName: string, commentText: string, ownerId: string)

  datatype RecordType = StatusChangeType | NewCommentType | SystemType

  /** A row of the `notifications` table as the dispatcher inserts it. */
  datatype Record = Record(
    userId: string,
    reportId: string,
    kind: RecordType,
    title: string,
    message: string,
    read: bool)

  /** Everything outside the code that a dispatch consults. */
  datatype Environment = Environment(
    lookup: PreferenceLookup,  // the preference query for the recipient
    permission: Permission,    // the browser's notification permission
    nativeThrows: bool,        // the native Notification constructor throws
    sessionEmail: string)      // email of the signed-in account ("" when none)

  /** What a dispatch makes observable, in order. */
  datatype Effect =
    | Shown(surface: Surface)
    | EmailSimulated(to: string, reportTitle: string, newStatus: string)
    | Inserted(record: Record)

  const StatusTitle := "Report Status Updated"
  const CommentTitle := "New Comment on Your Report"

  function StatusMessage(reportTitle: string, newStatus: string): string {
    "Your report \"" + reportTitle + "\" is now " + newStatus
  }

  function CommentPushBody(commenterName: string, commentText: string): string {
    commenterName + ": " + Prefix(commentText, 100) + "..."
  }

  function CommentMessage(commenterName: string, reportTitle: string): string {
    commenterName + " commented on \"" + reportTitle + "\""
  }

  /** The comment push body: the commenter, at most 100 characters of the comment, and "..." appended always. */
  lemma CommentPushBodyShape(commenterName: string, commentText: string)
    ensures var b := CommentPushBody(commenterName, commentText);
      && b[..|commenterName| + 2] == commenterName + ": "
      && b[|b| - 3..] == "..."
      && |b| <= |commenterName| + 105
      && (|commentText| <= 100 ==> b == commenterName + ": " + commentText + "...")
  {
  }

  function RecordFor(e: Event): (r: Record)
    ensures !r.read
    ensures e.StatusChange? ==> r.kind == StatusChangeType && r.userId == e.userId
    ensures e.NewComment? ==> r.kind == NewCommentType && r.userId == e.ownerId
    ensures r.reportId == e.reportId
  {
    match e
    case StatusChange(id, title, _, status, user) =>
      Record(user, id, StatusChangeType, StatusTitle, StatusMessage(title, status), false)
    case NewComment(id, title, commenter, _, owner) =>
      Record(owner, id, NewCommentType, CommentTitle, CommentMessage(commenter, title), false)
  }

  /** The push a dispatch would show for `e`. */
  function PushFor(e: Event, p: Permission): Surface {
    match e
    case StatusChange(id, title, _, status, _) =>
      ShowPush(p, StatusTitle, StatusMessage(title, status), "report-" + id)
    case NewComment(id, _, commenter, text, _) =>
      ShowPush(p, CommentTitle, CommentPushBody(commenter, text), "comment-" + id)
  }

  /** The channel gate for push: the master flag and the flag of the event's kind. */
  predicate PushWanted(e: Event, prefs: Preferences) {
    prefs.pushEnabled && (if e.StatusChange? then prefs.pushOnStatusChange else prefs.pushOnComment)
  }

  /** The channel gate for email; a comment has no email path at all. */
  predicate EmailWanted(e: Event, prefs: Preferences) {
    e.StatusChange? && prefs.emailEnabled && prefs.emailOnStatusChange
  }

  /** A step threw, so the catch ends the call before the insert. */
  predicate Aborted(e: Event, env: Environment) {
    || env.lookup.QueryThrew?
    || (PushWanted(e, LoadedPreferences(env.lookup)) && env.permission == Granted && env.nativeThrows)
  }

  /** The effects of one `notifyStatusChange` / `notifyNewComment` call. */
  function DispatchEffects(e: Event, env: Environment): seq<Effect> {
    if Aborted(e, env) then []
    else
      var prefs := LoadedPreferences(env.lookup);
      var push := PushFor(e, env.permission);
      var shown := if PushWanted(e, prefs) && !push.NoSurface? then [Shown(push)] else [];
      var mailed :=
        if EmailWanted(e, prefs) && env.sessionEmail != ""
        then [EmailSimulated(env.sessionEmail, e.reportTitle, e.newStatus)]
        else [];
      shown + mailed + [Inserted(RecordFor(e))]
  }

  /** The records among some effects, in order. */
  function Inserts(effects: seq<Effect>): (rs: seq<Record>)
    ensures |rs| <= |effects|
  {
    if effects == [] then []
    else (if effects[0].Inserted? then [effects[0].record] else []) + Inserts(effects[1..])
  }

  lemma {:induction false} InsertsAppend(a: seq<Effect>, b: seq<Effect>)
    ensures Inserts(a + b) == Inserts(a) + Inserts(b)
  {
    if a != [] {
      assert (a + b)[0] == a[0] && (a + b)[1..] == a[1..] + b;
      InsertsAppend(a[1..], b);
    } else {
      assert a + b == b;
    }
  }

  predicate ShowsPush(effects: seq<Effect>) {
    exists i :: 0 <= i < |effects| && effects[i].Shown?
  }

  predicate SendsEmail(effects: seq<Effect>) {
    exists i :: 0 <= i < |effects| && effects[i].EmailSimulated?
  }

  /**
   * Exactly one unread record per call, typed by the event, whatever the
   * channel flags say, unless an earlier step threw (then none).
   */
  lemma DispatchInsertsOnce(e: Event, env: Environment)
    ensures Inserts(DispatchEffects(e, env)) == if Aborted(e, env) then [] else [RecordFor(e)]
  {
    var effects := DispatchEffects(e, env);
    if !Aborted(e, env) {
      var n := |effects| - 1;
      assert effects == effects[..n] + [effects[n]];
      InsertsAppend(effects[..n], [effects[n]]);
      assert forall i :: 0 <= i < n ==> !effects[..n][i].Inserted?;
      NoInserts(effects[..n]);
      assert Inserts([effects[n]]) == [RecordFor(e)];
    }
  }

  lemma {:induction false} NoInserts(effects: seq<Effect>)
    requires forall i :: 0 <= i < |effects| ==> !effects[i].Inserted?
    ensures Inserts(effects) == []
  {
    if effects != [] {
      NoInserts(effects[1..]);
    }
  }

  /** The insert is the last step, after push and email. */
  lemma InsertComesLast(e: Event, env: Environment)
    requires !Aborted(e, env)
    ensures var effects := DispatchEffects(e, env);
      effects != [] && effects[|effects| - 1] == Inserted(RecordFor(e))
      && forall i :: 0 <= i < |effects| - 1 ==> !effects[i].Inserted?
  {
  }

  /**
   * Push gating: a push is shown iff the push flags for the event's kind are
   * on, the browser supports notifications, and no step threw.
   */
  lemma PushIff(e: Event, env: Environment)
    ensures ShowsPush(DispatchEffects(e, env)) <==>
      !Aborted(e, env) && PushWanted(e, LoadedPreferences(env.lookup)) && env.permission != Unsupported
  {
    var effects := DispatchEffects(e, env);
    if !Aborted(e, env) && PushWanted(e, LoadedPreferences(env.lookup)) && env.permission != Unsupported {
      assert effects[0].Shown?;
    }
  }

  /**
   * Email gating: an email is simulated iff the event is a status change,
   * both email flags are on, someone is signed in with an email, and no step
   * threw. A comment never sends email.
   */
  lemma EmailIff(e: Event, env: Environment)
    ensures SendsEmail(DispatchEffects(e, env)) <==>
      !Aborted(e, env) && EmailWanted(e, LoadedPreferences(env.lookup)) && env.sessionEmail != ""
  {
    var effects := DispatchEffects(e, env);
    var prefs := LoadedPreferences(env.lookup);
    if !Aborted(e, env) && EmailWanted(e, prefs) && env.sessionEmail != "" {
      var k := if PushWanted(e, prefs) && !PushFor(e, env.permission).NoSurface? then 1 else 0;
      assert effects[k].EmailSimulated?;
    }
  }

  lemma CommentNeverEmails(e: Event, env: Environment)
    requires e.NewComment?
    ensures !SendsEmail(DispatchEffects(e, env))
  {
    EmailIff(e, env);
  }

  /** The status text of the push body and of the stored record are the same string. */
  lemma StatusTextShared(e: Event, env: Environment)
    requires e.StatusChange? && env.permission == Granted
    ensures PushFor(e, env.permission).body == RecordFor(e).message
         == "Your report \"" + e.reportTitle + "\" is now " + e.newStatus
  {
  }

  /** A user without a preference row gets every channel: push, email and the record. */
  lemma MissingRowEnablesAll(e: Event, env: Environment)
    requires e.StatusChange? && (env.lookup.NoRow? || env.lookup.QueryError?)
    requires env.permission != Unsupported && !env.nativeThrows && env.sessionEmail != ""
    ensures ShowsPush(DispatchEffects(e, env)) && SendsEmail(DispatchEffects(e, env))
    ensures Inserts(DispatchEffects(e, env)) == [RecordFor(e)]
  {
    PushIff(e, env);
    EmailIff(e, env);
    DispatchInsertsOnce(e, env);
  }

  /** A status change for a user with push on and email off: one native push with the status text, then the record. */
  lemma PushOnlyScenario(e: Event, env: Environment)
    requires e.StatusChange?
    requires env.lookup == Row(Preferences(false, true, true, true, true, true))
    requires env.permission == Granted && !env.nativeThrows
    ensures DispatchEffects(e, env) ==
      [Shown(Native(StatusTitle, StatusMessage(e.reportTitle, e.newStatus), "report-" + e.reportId)),
       Inserted(RecordFor(e))]
  {
    var prefs := LoadedPreferences(env.lookup);
    assert prefs.pushEnabled && prefs.pushOnStatusChange && !prefs.emailEnabled;
    assert !Aborted(e, env);
  }

  /** The query for the unread total: the count, 0 when it is missing, 0 when the call throws. */
  datatype CountQuery = Counted(count: Option<nat>) | CountThrew

  function UnreadCountOf(q: CountQuery): (n: nat)
    ensures q.Counted? && q.count.Some? ==> n == q.count.value
    ensures q.CountThrew? || q.count.None? ==> n == 0
  {
    match q
    case Counted(Some(n)) => n
    case _ => 0
  }

  /**
   * The dispatcher as the source runs it: one step after another, appending
   * what becomes observable to `effects`.
   */
  class Dispatcher {
    var effects: seq<Effect>

    constructor ()
      ensures effects == []
    {
      effects := [];
    }

    /** Shows the push for `e` if it is wanted; reports whether the native constructor threw. */
    method Push(e: Event, prefs: Preferences, env: Environment) returns (threw: bool)
      modifies this
      ensures threw <==> PushWanted(e, prefs) && env.permission == Granted && env.nativeThrows
      ensures var push := PushFor(e, env.permission);
        effects == old(effects) + if !threw && PushWanted(e, prefs) && !push.NoSurface? then [Shown(push)] else []
    {
      threw := false;
      if prefs.pushEnabled && (if e.StatusChange? then prefs.pushOnStatusChange else prefs.pushOnComment) {
        var surface := PushFor(e, env.permission);
        if surface.Native? && env.nativeThrows {
          threw := true;
          return;
        }
        if !surface.NoSurface? {
          effects := effects + [Shown(surface)];
        }
      }
    }

    method NotifyStatusChange(reportId: string, reportTitle: string, oldStatus: string, newStatus: string,
                              userId: string, env: Environment)
      modifies this
      ensures effects == old(effects) + DispatchEffects(StatusChange(reportId, reportTitle, oldStatus, newStatus, userId), env)
    {
      var e := StatusChange(reportId, reportTitle, oldStatus, newStatus, userId);
      if env.lookup.QueryThrew? {
        return;
      }
      var prefs := LoadedPreferences(env.lookup);
      var threw := Push(e, prefs, env);
      if threw {
        return;
      }
      if prefs.emailEnabled && prefs.emailOnStatusChange {
        // sendEmailNotification: nothing happens without a signed-in email
        if env.sessionEmail != "" {
          effects := effects + [EmailSimulated(env.sessionEmail, reportTitle, newStatus)];
        }
      }
      effects := effects + [Inserted(Record(userId, reportId, StatusChangeType, StatusTitle,
                                            StatusMessage(reportTitle, newStatus), false))];
    }

    method NotifyNewComment(reportId: string, reportTitle: string, commenterName: string, commentText: string,
                            reportOwnerId: string, env: Environment)
      modifies this
      ensures effects == old(effects) + DispatchEffects(NewComment(reportId, reportTitle, commenterName, commentText, reportOwnerId), env)
    {
      var e := NewComment(reportId, reportTitle, commenterName, commentText, reportOwnerId);
      if env.lookup.QueryThrew? {
        return;
      }
      var prefs := LoadedPreferences(env.lookup);
      var threw := Push(e, prefs, env);
      if threw {
        return;
      }
      effects := effects + [Inserted(Record(reportOwnerId, reportId, NewCommentType, CommentTitle,
                                            CommentMessage(commenterName, reportTitle), false))];
    }
  }
}
