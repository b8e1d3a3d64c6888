/**
 * The authentication context: the session user, the loading flag, the session
 * persisted under `churchUser`, and the derived admin flag.
 */
module Auth {
  import opened Wrappers
  import opened Domain
  import opened Storage

  /** The access-control state a page sees. */
  datatype AuthState = Loading | Anonymous | Member(user: User) | Admin(user: User)

  /** The user a reload restores from storage: only a stored user object parses into one. */
  function RestoredUser(items: map<string, Entry>): (r: Option<User>)
    ensures r.Some? <==> SessionKey in items && items[SessionKey].UserObject?
    ensures r.Some? ==> r.value == items[SessionKey].user
  {
    if SessionKey in items && items[SessionKey].UserObject? then Some(items[SessionKey].user) else None
  }

  class AuthProvider {
    var user: Option<User>
    var isLoading: bool
    const storage: LocalStorage

    /** Before the session is read there is no user and the provider is loading. */
    constructor(storage: LocalStorage)
      ensures user == None && isLoading && this.storage == storage
    {
      user := None;
      isLoading := true;
      this.storage := storage;
    }

    /**
     * The mount effect: a non-empty stored session that parses as a user becomes the
     * user; one that fails to parse is removed; loading ends either way.
     */
    method LoadSession()
      modifies this, storage
      ensures !isLoading
      ensures RestoredUser(old(storage.items)).Some? ==> user == RestoredUser(old(storage.items))
      ensures RestoredUser(old(storage.items)).None? ==> user == old(user)
      ensures SessionKey in old(storage.items) && old(storage.items)[SessionKey].Malformed? ==>
                storage.items == old(storage.items) - {SessionKey}
      ensures !(SessionKey in old(storage.items) && old(storage.items)[SessionKey].Malformed?) ==>
                storage.items == old(storage.items)
    {
      if SessionKey in storage.items && !storage.items[SessionKey].EmptyText? {
        var saved := storage.items[SessionKey];
        if saved.Malformed? {
          storage.RemoveItem(SessionKey);
        } else if saved.UserObject? {
          user := Some(saved.user);
        }
      }
      isLoading := false;
    }

    /** `login(u)`: `u` becomes the session user and is persisted. */
    method Login(u: User)
      modifies this, storage
      ensures user == Some(u) && isLoading == old(isLoading)
      ensures storage.items == old(storage.items)[SessionKey := UserObject(u)]
    {
      user := Some(u);
      storage.SetItem(SessionKey, UserObject(u));
    }

    /** `logout()`: no user, and no persisted session. */
    method Logout()
      modifies this, storage
      ensures user == None && isLoading == old(isLoading)
      ensures storage.items == old(storage.items) - {SessionKey}
    {
      user := None;
      storage.RemoveItem(SessionKey);
    }

    /** `user?.isAdmin || false` */
    function IsAdmin(): (b: bool)
      reads this
      ensures b <==> user.Some? && user.value.isAdmin == Some(true)
      ensures user.None? ==> !b
    {
      user.Some? && IsAdminUser(user.value)
    }

    /** Which of the access-control states the provider is in. */
    function State(): (s: AuthState)
      reads this
      ensures isLoading <==> s.Loading?
      ensures s.Anonymous? <==> !isLoading && user.None?
      ensures s.Admin? <==> !isLoading && IsAdmin()
      ensures (s.Member? || s.Admin?) ==> user == Some(s.user)
    {
      if isLoading then Loading
      else if user.None? then Anonymous
      else if IsAdmin() then Admin(user.value)
      else Member(user.value)
    }
  }

  /** A session persisted by `login` is restored, unchanged, by the next load. */
  lemma LoginSurvivesReload(items: map<string, Entry>, u: User)
    ensures RestoredUser(items[SessionKey := UserObject(u)]) == Some(u)
  {
  }

  /** After `logout` a reload restores nobody. */
  lemma LogoutIsFinal(items: map<string, Entry>)
    ensures RestoredUser(items - {SessionKey}) == None
  {
  }

  /** Logging out and then reloading the page leaves the provider anonymous. */
  method LogoutThenReload(p: AuthProvider)
    modifies p, p.storage
    ensures p.State() == Anonymous
    ensures p.storage.items == old(p.storage.items) - {SessionKey}
  {
    p.Logout();
    p.LoadSession();
  }

  /**
   * `login` then `logout` ends without a user and without a persisted session, whatever
   * session was stored before: the storage is as `logout` alone would leave it.
   */
  method LoginThenLogout(p: AuthProvider, u: User)
    modifies p, p.storage
    ensures p.user == None && p.isLoading == old(p.isLoading)
    ensures !p.isLoading ==> p.State() == Anonymous
    ensures RestoredUser(p.storage.items) == None
    ensures p.storage.items == old(p.storage.items) - {SessionKey}
  {
    p.Login(u);
    p.Logout();
  }
}
