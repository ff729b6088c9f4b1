/**
 * The preference panel of src/components/NotificationSettings.tsx: six
 * channel flags shown as switches, a push-permission flag that gates the
 * push switches, and a toggle that flips one flag and persists the whole
 * record for the signed-in user.
 */
module NotificationSettings {
  import opened Common
  import opened Notifications

  /** The keys of a preference record. */
  datatype PrefKey =
    | EmailEnabledKey | PushEnabledKey
    | EmailOnStatusChangeKey | EmailOnCommentKey
    | PushOnStatusChangeKey | PushOnCommentKey

  /** `preferences[key]`. */
  function Get(p: Preferences, k: PrefKey): bool {
    match k
    case EmailEnabledKey => p.emailEnabled
    case PushEnabledKey => p.pushEnabled
    case EmailOnStatusChangeKey => p.emailOnStatusChange
    case EmailOnCommentKey => p.emailOnComment
    case PushOnStatusChangeKey => p.pushOnStatusChange
    case PushOnCommentKey => p.pushOnComment
  }

  /** A record is determined by its six flags. */
  lemma FlagsDetermineRecord(p: Preferences, q: Preferences)
    requires forall k :: Get(p, k) == Get(q, k)
    ensures p == q
  {
    assert Get(p, EmailEnabledKey) == Get(q, EmailEnabledKey);
    assert Get(p, PushEnabledKey) == Get(q, PushEnabledKey);
    assert Get(p, EmailOnStatusChangeKey) == Get(q, EmailOnStatusChangeKey);
    assert Get(p, EmailOnCommentKey) == Get(q, EmailOnCommentKey);
    assert Get(p, PushOnStatusChangeKey) == Get(q, PushOnStatusChangeKey);
    assert Get(p, PushOnCommentKey) == Get(q, PushOnCommentKey);
  }

  /** `{ ...preferences, [key]: !preferences[key] }`: the chosen flag negated, the other five kept. */
  function Toggled(p: Preferences, k: PrefKey): (r: Preferences)
    ensures Get(r, k) == !Get(p, k)
    ensures forall other :: other != k ==> Get(r, other) == Get(p, other)
  {
    match k
    case EmailEnabledKey => p.(emailEnabled := !p.emailEnabled)
    case PushEnabledKey => p.(pushEnabled := !p.pushEnabled)
    case EmailOnStatusChangeKey => p.(emailOnStatusChange := !p.emailOnStatusChange)
    case EmailOnCommentKey => p.(emailOnComment := !p.emailOnComment)
    case PushOnStatusChangeKey => p.(pushOnStatusChange := !p.pushOnStatusChange)
    case PushOnCommentKey => p.(pushOnComment := !p.pushOnComment)
  }

  /** Toggling the same key twice gives back the original record. */
  lemma ToggleTwice(p: Preferences, k: PrefKey)
    ensures Toggled(Toggled(p, k), k) == p
  {
    var q := Toggled(Toggled(p, k), k);
    forall other ensures Get(q, other) == Get(p, other) {
    }
    FlagsDetermineRecord(q, p);
  }

  /** Which controls the panel shows or enables. */
  datatype Controls = Controls(emailSubToggles: bool, pushMasterEnabled: bool, pushSwitchOn: bool, pushSubToggles: bool)

  function VisibleControls(p: Preferences, granted: bool): (c: Controls)
    ensures c.emailSubToggles <==> p.emailEnabled
    ensures c.pushMasterEnabled <==> granted
    ensures c.pushSubToggles <==> p.pushEnabled && granted
    ensures c.pushSwitchOn == c.pushSubToggles
  {
    Controls(p.emailEnabled, granted, p.pushEnabled && granted, p.pushEnabled && granted)
  }

  /** Push sub-switches never show while the master switch is disabled. */
  lemma PushSubTogglesNeedMaster(p: Preferences, granted: bool)
    ensures VisibleControls(p, granted).pushSubToggles ==> VisibleControls(p, granted).pushMasterEnabled
  {
  }

  /** One write of the whole record for a user. */
  datatype Upsert = Upsert(userId: string, prefs: Preferences)

  const EnabledToast := "Push notifications enabled!"
  const DeniedToast := "Push notification permission denied"

  class Settings {
    var preferences: Preferences
    var pushPermissionGranted: bool
    var loading: bool
    var upserts: seq<Upsert>

    constructor ()
      ensures preferences == AllEnabled && !pushPermissionGranted && loading && upserts == []
    {
      preferences := AllEnabled;
      pushPermissionGranted := false;
      loading := true;
      upserts := [];
    }

    /** `loadPreferences`: nothing when signed out; otherwise the loaded record, and loading ends. */
    method LoadPreferences(user: Option<string>, lookup: PreferenceLookup)
      modifies this`preferences, this`loading
      ensures user.None? ==> preferences == old(preferences) && loading == old(loading)
      ensures user.Some? ==> preferences == LoadedPreferences(lookup) && !loading
    {
      if user.None? {
        return;
      }
      loading := true;
      preferences := LoadedPreferences(lookup);
      loading := false;
    }

    /** `checkPushPermission`: set from the browser state only where the browser has notifications. */
    method CheckPushPermission(p: Permission)
      modifies this`pushPermissionGranted
      ensures p == Unsupported ==> pushPermissionGranted == old(pushPermissionGranted)
      ensures p != Unsupported ==> (pushPermissionGranted <==> p == Granted)
    {
      if p != Unsupported {
        pushPermissionGranted := p == Granted;
      }
    }

    /** `handleRequestPushPermission`: the answer becomes the flag, with a toast saying which. */
    method RequestPushPermission(p: Permission, promptGrants: bool) returns (toast: string)
      modifies this`pushPermissionGranted
      ensures pushPermissionGranted == RequestPermission(p, promptGrants).granted
      ensures toast == if pushPermissionGranted then EnabledToast else DeniedToast
    {
      var answer := RequestPermission(p, promptGrants);
      pushPermissionGranted := answer.granted;
      if answer.granted {
        toast := EnabledToast;
      } else {
        toast := DeniedToast;
      }
    }

    /** `handleToggle`: nothing when signed out; otherwise one flag flips and the whole record is written. */
    method HandleToggle(user: Option<string>, k: PrefKey)
      modifies this`preferences, this`upserts
      ensures user.None? ==> preferences == old(preferences) && upserts == old(upserts)
      ensures user.Some? ==> preferences == Toggled(old(preferences), k)
      ensures user.Some? ==> upserts == old(upserts) + [Upsert(user.value, preferences)]
    {
      if user.None? {
        return;
      }
      preferences := Toggled(preferences, k);
      upserts := upserts + [Upsert(user.value, preferences)];
    }
  }
}
