/**
 * The settings screen (components/Settings.tsx): change the stored e-mail, typed twice.
 */
module SettingsScreen {
  import opened Basics
  import opened Remote
  import opened Storage

  /** The user whose record the change is sent to: always user 1, whoever is logged in. */
  const TargetUserId: int := 1

  /** Which of the three alerts shows. */
  datatype SettingsAlert = EmailChangedAlert | MismatchAlert | ChangeErrorAlert

  class SettingsView {
    var email: string
    var repeat: string
    /** The e-mail shown at the top of the screen. */
    var currentEmail: Option<string>

    /** The state before any effect has run. */
    constructor ()
      ensures email == "" && repeat == "" && currentEmail == Some("")
    {
      email, repeat, currentEmail := "", "", Some("");
    }

    /** `fetchEmail`: show the stored e-mail (or nothing, when none is stored). */
    method Mount(store: KeyValueStore)
      modifies this
      ensures currentEmail == Lookup(store.entries, UserEmailKey)
      ensures email == old(email) && repeat == old(repeat)
    {
      currentEmail := store.GetItem(UserEmailKey);
    }

    /**
     * `changeEmail`: when the two fields differ nothing is sent or stored; when they agree the
     * new e-mail is sent to user 1 and, only if that request completes, stored and shown. The
     * stored session id is read but never changed.
     */
    method ChangeEmail(store: KeyValueStore, response: Response<()>) returns (request: Option<Request>, alert: SettingsAlert)
      modifies this, store
      ensures old(email) != old(repeat) ==>
        request == None && alert == MismatchAlert && store.entries == old(store.entries) && unchanged(this)
      ensures old(email) == old(repeat) ==> request == Some(ReplaceUserEmail(TargetUserId, old(email)))
      ensures old(email) == old(repeat) && response.Received? ==>
        alert == EmailChangedAlert &&
        store.entries == old(store.entries)[UserEmailKey := old(email)] &&
        currentEmail == Some(old(email)) && email == old(email) && repeat == old(repeat)
      ensures old(email) == old(repeat) && response.Failed? ==>
        alert == ChangeErrorAlert && store.entries == old(store.entries) && unchanged(this)
      ensures Lookup(store.entries, UserIdKey) == Lookup(old(store.entries), UserIdKey)
    {
      var userId := store.GetItem(UserIdKey);
      if email == repeat {
        request := Some(ReplaceUserEmail(TargetUserId, email));
        if response.Failed? {
          return request, ChangeErrorAlert;
        }
        store.SetItem(UserEmailKey, email);
        currentEmail := Some(email);
        alert := EmailChangedAlert;
      } else {
        request, alert := None, MismatchAlert;
      }
    }
  }
}
