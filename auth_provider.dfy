/**
 * The mock authentication session of `AuthProvider`: the `user` and
 * `isLoading` state cells and the persisted `chatUser` entry, which is
 * modelled as the user it encodes (or `None` when the entry is absent).
 */
module AuthProvider {
  import opened Options

  datatype User = User(username: string, avatar: Option<string>)

  /** The provider's state together with the persisted entry. */
  datatype Session = Session(user: Option<User>, isLoading: bool, stored: Option<User>)

  const MissingProvider: string := "useAuth must be used within an AuthProvider"

  /** Before the load effect runs: no user, still loading; storage is whatever an earlier page left. */
  function InitialSession(stored: Option<User>): Session {
    Session(None, true, stored)
  }

  /** The load effect: adopt the stored user if there is one; loading ends either way. */
  function AfterLoad(s: Session): (r: Session)
    ensures !r.isLoading && r.stored == s.stored
    ensures s.stored.Some? ==> r.user == s.stored
    ensures s.stored.None? ==> r.user == s.user
  {
    s.(user := if s.stored.Some? then s.stored else s.user, isLoading := false)
  }

  /** Any non-empty username and password are accepted (JavaScript truthiness of strings). */
  function LoginAccepted(username: string, password: string): bool {
    username != "" && password != ""
  }

  /** `login(username, password)` once its simulated delay is over. */
  function AfterLogin(s: Session, username: string, password: string): Session {
    if LoginAccepted(username, password) then
      var user := User(username, None);
      s.(user := Some(user), stored := Some(user))
    else s
  }

  /** `logout()`: no user and no stored entry. */
  function AfterLogout(s: Session): Session {
    s.(user := None, stored := None)
  }

  /**
   * A login succeeds exactly when both arguments are non-empty; then the
   * session and storage hold the username alone (the password is dropped);
   * otherwise nothing changes.
   */
  lemma LoginOutcome(s: Session, username: string, password: string)
    ensures username != "" && password != "" ==>
      && AfterLogin(s, username, password).user == Some(User(username, None))
      && AfterLogin(s, username, password).stored == AfterLogin(s, username, password).user
      && AfterLogin(s, username, password).isLoading == s.isLoading
    ensures username == "" || password == "" ==> AfterLogin(s, username, password) == s
  {
  }

  /** A successful login survives a reload: a fresh provider loads the same username back. */
  lemma LoginThenReload(s: Session, username: string, password: string)
    requires LoginAccepted(username, password)
    ensures var reloaded := AfterLoad(InitialSession(AfterLogin(s, username, password).stored));
      reloaded.user.Some? && reloaded.user.value.username == username && !reloaded.isLoading
  {
  }

  /** After a logout a fresh provider finds nobody. */
  lemma LogoutThenReload(s: Session)
    ensures AfterLoad(InitialSession(AfterLogout(s).stored)).user == None
  {
  }

  /** `useAuth()`: the provider's value, or the error it throws outside a provider. */
  function UseAuth(context: Option<Session>): (r: Result<Session, string>)
    ensures r.Err? <==> context.None?
    ensures r.Ok? ==> context == Some(r.value)
    ensures r.Err? ==> r.error == "useAuth must be used within an AuthProvider"
  {
    match context
    case Some(s) => Ok(s)
    case None => Err(MissingProvider)
  }

  /** The provider instance: its two state cells and the storage slot it writes. */
  class Provider {
    var user: Option<User>
    var isLoading: bool
    var stored: Option<User>

    function State(): Session
      reads this
    {
      Session(user, isLoading, stored)
    }

    constructor (stored: Option<User>)
      ensures State() == InitialSession(stored)
    {
      user, isLoading := None, true;
      this.stored := stored;
    }

    /** The effect that restores a saved user. */
    method Load()
      modifies this
      ensures State() == AfterLoad(old(State()))
    {
      if stored.Some? {
        user := stored;
      }
      isLoading := false;
    }

    method Login(username: string, password: string) returns (ok: bool)
      modifies this
      ensures ok == LoginAccepted(username, password)
      ensures State() == AfterLogin(old(State()), username, password)
    {
      if username != "" && password != "" {
        var u := User(username, None);
        user := Some(u);
        stored := Some(u);
        return true;
      }
      return false;
    }

    method Logout()
      modifies this
      ensures State() == AfterLogout(old(State()))
    {
      user := None;
      stored := None;
    }
  }
}
