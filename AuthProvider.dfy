/**
 * The session provider: the signed-in state, restored from browser storage on mount and
 * written back by login and logout. The user record is kept as its serialized text, so
 * the JSON.stringify / JSON.parse pair between state and storage is the identity here.
 */
module AuthProvider {
  import opened Common
  import opened BrowserStorage

  const TokenKey := "token"
  const UserKey := "user"

  datatype SessionState = SessionState(isAuthenticated: bool, user: Option<string>, token: Option<string>, loading: bool)

  /** The state before the mount effect has run. */
  const Initial := SessionState(false, None, None, true)

  /** A stored item that counts: present and non-empty (an empty string is falsy). */
  predicate Stored(items: map<string, string>, key: string) {
    key in items && items[key] != ""
  }

  /** The mount effect: token and user come back only together, and loading always ends. */
  function Restored(before: SessionState, items: map<string, string>): (after: SessionState)
    ensures !after.loading
    ensures Stored(items, TokenKey) && Stored(items, UserKey) ==>
      after == SessionState(true, Some(items[UserKey]), Some(items[TokenKey]), false)
    ensures !(Stored(items, TokenKey) && Stored(items, UserKey)) ==> after == before.(loading := false)
  {
    if Stored(items, TokenKey) && Stored(items, UserKey) then
      SessionState(true, Some(items[UserKey]), Some(items[TokenKey]), false)
    else before.(loading := false)
  }

  /** The storage login leaves behind. */
  function LoginItems(items: map<string, string>, token: string, user: string): (after: map<string, string>)
    ensures after.Keys == items.Keys + {TokenKey, UserKey}
    ensures after[TokenKey] == token && after[UserKey] == user
    ensures forall k :: k in items && k != TokenKey && k != UserKey ==> after[k] == items[k]
  {
    items[TokenKey := token][UserKey := user]
  }

  /** The storage logout leaves behind. */
  function LogoutItems(items: map<string, string>): (after: map<string, string>)
    ensures after.Keys == items.Keys - {TokenKey, UserKey}
    ensures forall k :: k in after ==> after[k] == items[k]
  {
    items - {TokenKey, UserKey}
  }

  /** A session signed in with a non-empty token and user comes back on the next mount. */
  lemma LoginSurvivesReload(items: map<string, string>, token: string, user: string)
    requires token != "" && user != ""
    ensures Restored(Initial, LoginItems(items, token, user)) == SessionState(true, Some(user), Some(token), false)
  {
  }

  /** After logout the next mount restores nothing. */
  lemma LogoutSurvivesReload(items: map<string, string>)
    ensures Restored(Initial, LogoutItems(items)) == Initial.(loading := false)
  {
    assert TokenKey !in LogoutItems(items);
  }

  /** A session whose token the API service dropped on a 401 is not restored on the next mount. */
  lemma ExpiredSessionNotRestored(items: map<string, string>)
    ensures Restored(Initial, items - {TokenKey}) == Initial.(loading := false)
  {
  }

  class Session {
    var isAuthenticated: bool
    var user: Option<string>
    var token: Option<string>
    var loading: bool
    const storage: Storage

    ghost function State(): SessionState
      reads this
    {
      SessionState(isAuthenticated, user, token, loading)
    }

    /** The state token agrees with the stored one, a missing item reading as null. */
    ghost predicate TokenInSync()
      reads this, storage
    {
      token == storage.GetItem(TokenKey)
    }

    constructor (storage: Storage)
      ensures State() == Initial && this.storage == storage
    {
      isAuthenticated := false;
      user := None;
      token := None;
      loading := true;
      this.storage := storage;
    }

    /** The effect run once on mount. */
    method Restore()
      modifies this
      ensures State() == Restored(old(State()), storage.items)
    {
      var storedToken := storage.GetItem(TokenKey);
      var storedUser := storage.GetItem(UserKey);
      if storedToken.Some? && storedToken.value != "" && storedUser.Some? && storedUser.value != "" {
        token := storedToken;
        user := storedUser;
        isAuthenticated := true;
      }
      loading := false;
    }

    method Login(newToken: string, userData: string)
      modifies this, storage
      ensures storage.items == LoginItems(old(storage.items), newToken, userData)
      ensures State() == old(State()).(isAuthenticated := true, user := Some(userData), token := Some(newToken))
      ensures TokenInSync()
    {
      storage.SetItem(TokenKey, newToken);
      storage.SetItem(UserKey, userData);
      token := Some(newToken);
      user := Some(userData);
      isAuthenticated := true;
    }

    method Logout()
      modifies this, storage
      ensures storage.items == LogoutItems(old(storage.items))
      ensures State() == old(State()).(isAuthenticated := false, user := None, token := None)
      ensures TokenInSync()
    {
      storage.RemoveItem(TokenKey);
      storage.RemoveItem(UserKey);
      token := None;
      user := None;
      isAuthenticated := false;
    }
  }
}
