/**
 * The mock authentication store: one flag kept in the browser's local
 * storage under a fixed key. Outside a browser there is no storage, every
 * query answers "not authenticated" and updates do nothing.
 */
module Auth {
  import opened Wrappers

  /** The storage key of the flag. */
  const AuthKey := "pollensense_auth"
  /** The stored text that means "logged in". */
  const AuthFlag := "true"

  /** `localStorage.getItem`: the stored text, or nothing for a missing key. */
  function GetItem(store: map<string, string>, key: string): Option<string> {
    if key in store then Some(store[key]) else None
  }

  /** `isAuthenticated()` read off a window flag and a storage snapshot. */
  function Authenticated(hasWindow: bool, store: map<string, string>): (r: bool)
    ensures !hasWindow ==> !r
    ensures hasWindow ==> (r <==> AuthKey in store && store[AuthKey] == "true")
  {
    hasWindow && GetItem(store, AuthKey) == Some(AuthFlag)
  }

  /** The storage after `login()`. */
  function LoggedIn(hasWindow: bool, store: map<string, string>): (r: map<string, string>)
    ensures Authenticated(hasWindow, r) == hasWindow
    ensures !hasWindow ==> r == store
    ensures hasWindow ==> GetItem(r, AuthKey) == Some(AuthFlag)
    ensures forall k :: k != AuthKey ==> GetItem(r, k) == GetItem(store, k)
    ensures r.Keys == if hasWindow then store.Keys + {AuthKey} else store.Keys
  {
    if !hasWindow then store else store[AuthKey := AuthFlag]
  }

  /** The storage after `logout()`. */
  function LoggedOut(hasWindow: bool, store: map<string, string>): (r: map<string, string>)
    ensures !Authenticated(hasWindow, r)
    ensures !hasWindow ==> r == store
    ensures hasWindow ==> GetItem(r, AuthKey) == None
    ensures forall k :: k != AuthKey ==> GetItem(r, k) == GetItem(store, k)
    ensures r.Keys == if hasWindow then store.Keys - {AuthKey} else store.Keys
  {
    if !hasWindow then store else store - {AuthKey}
  }

  /** Logging in, or out, a second time changes nothing. */
  lemma LoginLogoutIdempotent(hasWindow: bool, store: map<string, string>)
    ensures LoggedIn(hasWindow, LoggedIn(hasWindow, store)) == LoggedIn(hasWindow, store)
    ensures LoggedOut(hasWindow, LoggedOut(hasWindow, store)) == LoggedOut(hasWindow, store)
  {
  }

  /** A logout undoes a login for a store that did not hold the key before. */
  lemma LogoutUndoesLogin(hasWindow: bool, store: map<string, string>)
    requires AuthKey !in store
    ensures LoggedOut(hasWindow, LoggedIn(hasWindow, store)) == store
  {
  }

  /** The browser's local storage, with the presence of a window fixed for its lifetime. */
  class AuthStore {
    const hasWindow: bool
    var storage: map<string, string>

    constructor (hasWindow: bool, storage: map<string, string>)
      ensures this.hasWindow == hasWindow && this.storage == storage
    {
      this.hasWindow := hasWindow;
      this.storage := storage;
    }

    /** `isAuthenticated()`: reads the store, changes nothing. */
    method IsAuthenticated() returns (r: bool)
      ensures r == Authenticated(hasWindow, storage)
      ensures r <==> hasWindow && AuthKey in storage && storage[AuthKey] == AuthFlag
    {
      if !hasWindow {
        return false;
      }
      r := AuthKey in storage && storage[AuthKey] == AuthFlag;
    }

    /** `login()`: sets the flag in a browser, does nothing elsewhere. */
    method Login()
      modifies this
      ensures storage == LoggedIn(hasWindow, old(storage))
      ensures Authenticated(hasWindow, storage) == hasWindow
    {
      if !hasWindow {
        return;
      }
      storage := storage[AuthKey := AuthFlag];
    }

    /** `logout()`: removes the flag in a browser, does nothing elsewhere. */
    method Logout()
      modifies this
      ensures storage == LoggedOut(hasWindow, old(storage))
      ensures !Authenticated(hasWindow, storage)
    {
      if !hasWindow {
        return;
      }
      storage := storage - {AuthKey};
    }
  }
}
