/**
 * The header (components/Header.tsx): navigation buttons, and the session controls. Logged
 * out it offers an e-mail field and a login button; logged in, the user's e-mail, a settings
 * button and a logout button. Whether someone is logged in is re-read from the store.
 */
module HeaderBar {
  import opened Basics
  import opened Remote
  import opened Storage
  import Decimal
  import Session

  /** Which of the three login alerts shows. */
  datatype LoginAlert = LoggedInAlert | UnknownUserAlert | LoginErrorAlert

  class HeaderView {
    /** The e-mail typed into the login field. */
    var email: string
    /** Whether the logged-in controls show. */
    var show: bool
    /** The e-mail shown next to the controls, as last read from the store. */
    var userEmail: Option<string>

    /** The state before any effect has run. */
    constructor ()
      ensures email == "" && !show && userEmail == None
    {
      email, show, userEmail := "", false, None;
    }

    /**
     * `handleChange`: `show` follows the stored session id; the shown e-mail is re-read only
     * while someone is logged in, so after a logout it keeps its old value.
     */
    method HandleChange(store: KeyValueStore)
      modifies this
      ensures show == Session.LoggedIn(store.entries)
      ensures show ==> userEmail == Lookup(store.entries, UserEmailKey)
      ensures !show ==> userEmail == old(userEmail)
      ensures email == old(email)
    {
      var userId := store.GetItem(UserIdKey);
      if Truthy(userId) {
        show := true;
        userEmail := store.GetItem(UserEmailKey);
      } else {
        show := false;
      }
    }

    /**
     * `handleLogin`: look the typed e-mail up; the first user found becomes the session
     * (id and e-mail stored) and the header switches to the logged-in controls. An empty
     * answer or a failed request changes nothing but the alert.
     */
    method HandleLogin(store: KeyValueStore, response: Response<seq<User>>) returns (request: Request, alert: LoginAlert)
      modifies this, store
      ensures request == FindUsersByEmail(old(email))
      ensures response.Received? && |response.data| > 0 ==>
        alert == LoggedInAlert &&
        store.entries == Session.AfterLogin(old(store.entries), response.data[0]) &&
        show && userEmail == Some(response.data[0].email) && email == old(email)
      ensures response.Received? && |response.data| == 0 ==>
        alert == UnknownUserAlert && store.entries == old(store.entries) && unchanged(this)
      ensures response.Failed? ==>
        alert == LoginErrorAlert && store.entries == old(store.entries) && unchanged(this)
    {
      request := FindUsersByEmail(email);
      if response.Failed? {
        return request, LoginErrorAlert;
      }
      var users := response.data;
      if |users| > 0 {
        alert := LoggedInAlert;
        store.SetItem(UserIdKey, Decimal.IntToString(users[0].id));
        store.SetItem(UserEmailKey, users[0].email);
        HandleChange(store);
      } else {
        alert := UnknownUserAlert;
      }
    }

    /** `handleLogout`: clear the whole store, mirrored lists included; the header logs out. */
    method HandleLogout(store: KeyValueStore)
      modifies this, store
      ensures store.entries == map[]
      ensures !show && userEmail == old(userEmail) && email == old(email)
      ensures EmailLabel() == None
    {
      store.Clear();
      HandleChange(store);
    }

    /** The e-mail label: rendered only when `show` and the shown e-mail are both truthy. */
    function EmailLabel(): (shown: Option<string>)
      reads this
      ensures shown.Some? <==> show && Truthy(userEmail)
      ensures shown.Some? ==> shown == userEmail
    {
      if show && Truthy(userEmail) then userEmail else None
    }
  }
}
