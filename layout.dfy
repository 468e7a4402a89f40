/** The dashboard layout (app/dashboard/layout.tsx): the login gate and logout over local storage. */
module Layout {
  import opened Wrappers

  const LoginRoute := "/login"

  /** Logged in only when the stored `isLoggedIn` is exactly "true". */
  predicate LoggedIn(entries: map<string, string>): (b: bool)
    ensures b <==> ("isLoggedIn", "true") in entries.Items
  {
    "isLoggedIn" in entries && entries["isLoggedIn"] == "true"
  }

  /** The store after removing the `isLoggedIn` and `user` entries. */
  function SessionCleared(entries: map<string, string>): (r: map<string, string>)
    ensures !LoggedIn(r) && "user" !in r
    ensures forall k :: k != "isLoggedIn" && k != "user" ==> (k in r <==> k in entries) && (k in r ==> r[k] == entries[k])
  {
    entries - {"isLoggedIn", "user"}
  }

  /** Clearing the session twice is clearing it once. */
  lemma SessionClearedIdempotent(entries: map<string, string>)
    ensures SessionCleared(SessionCleared(entries)) == SessionCleared(entries)
  {
    var once := SessionCleared(entries);
    assert forall k :: k in SessionCleared(once) <==> k in once;
  }

  /** The browser's local storage. */
  class LocalStore {
    var entries: map<string, string>

    constructor(entries: map<string, string>)
      ensures this.entries == entries
    {
      this.entries := entries;
    }
  }

  class DashboardLayout {
    var isLoggedIn: bool
    /** The stored user record, as its stored text. */
    var user: Option<string>
    var route: Option<string>

    constructor()
      ensures !isLoggedIn && user == None && route == None
    {
      isLoggedIn, user, route := false, None, None;
    }

    /** Nothing is rendered until the user is known to be logged in. */
    predicate Renders()
      reads this
    {
      isLoggedIn
    }

    /**
     * The mount effect: read the login flag; when logged in, load a
     * non-empty stored user record; otherwise go to the login page.
     */
    method CheckSession(store: LocalStore)
      modifies this
      ensures isLoggedIn == LoggedIn(store.entries)
      ensures isLoggedIn && "user" in store.entries && store.entries["user"] != "" ==>
        user == Some(store.entries["user"]) && route == old(route)
      ensures isLoggedIn && ("user" !in store.entries || store.entries["user"] == "") ==>
        user == old(user) && route == old(route)
      ensures !isLoggedIn ==> user == old(user) && route == Some(LoginRoute)
    {
      isLoggedIn := LoggedIn(store.entries);
      if isLoggedIn {
        if "user" in store.entries && store.entries["user"] != "" {
          user := Some(store.entries["user"]);
        }
      } else {
        route := Some(LoginRoute);
      }
    }

    /** `handleLogout`: remove the two session entries, keep every other (such as `token`), go to the login page. */
    method Logout(store: LocalStore)
      modifies this, store
      ensures store.entries == SessionCleared(old(store.entries))
      ensures route == Some(LoginRoute) && isLoggedIn == old(isLoggedIn) && user == old(user)
    {
      store.entries := store.entries - {"isLoggedIn", "user"};
      route := Some(LoginRoute);
    }
  }

  /** After logging out, the next check of the session finds no login and renders nothing. */
  method LogoutThenReload(layout: DashboardLayout, store: LocalStore)
    modifies layout, store
    ensures !layout.Renders() && layout.route == Some(LoginRoute)
    ensures forall k :: k != "isLoggedIn" && k != "user" && k in old(store.entries) ==>
      k in store.entries && store.entries[k] == old(store.entries[k])
  {
    layout.Logout(store);
    layout.CheckSession(store);
  }
}
