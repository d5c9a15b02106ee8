/**
 * The client's authentication context (`AuthProvider`): the signed-in user, the loading flag and the
 * one sessionStorage entry that keeps the user across a page load. Restore, login, logout and the
 * before-unload handler are the only things that change them.
 */
module Session {
  import opened Wrappers

  /** The sessionStorage key under which the signed-in user is kept. */
  const StorageKey := "intelicop_user"

  datatype User = User(username: string, role: string)

  /**
   * What the login request produced once awaited: the response's `ok` flag with the decoded body's
   * `success` (its truthiness) and `role`, or a rejection (network failure or a body that is not JSON).
   */
  datatype LoginReply = Replied(ok: bool, success: bool, role: string) | LoginThrew

  /** The provider's whole state: the `user` and `isLoading` React state and the browser's sessionStorage. */
  datatype AuthState = AuthState(user: Option<User>, isLoading: bool, storage: map<string, string>)

  /** A freshly mounted provider: nobody signed in, still loading, storage as the browser left it. */
  function Initial(storage: map<string, string>): (s: AuthState)
    ensures s.user == None && s.isLoading && s.storage == storage
  {
    AuthState(None, true, storage)
  }

  /**
   * The restore effect. A stored, non-empty value is parsed and becomes the user (`parse` returning
   * None stands for `JSON.parse` throwing, which aborts the effect before `setIsLoading(false)`);
   * otherwise the user stays as it was. Loading ends in both cases.
   */
  function RestoreStep(s: AuthState, parse: string -> Option<User>): (r: AuthState)
    ensures r.storage == s.storage
    ensures (StorageKey !in s.storage || s.storage[StorageKey] == "") ==> r == s.(isLoading := false)
    ensures StorageKey in s.storage && s.storage[StorageKey] != "" && parse(s.storage[StorageKey]).Some? ==>
              r == s.(user := parse(s.storage[StorageKey]), isLoading := false)
    ensures StorageKey in s.storage && s.storage[StorageKey] != "" && parse(s.storage[StorageKey]).None? ==>
              r == s
  {
    if StorageKey in s.storage && s.storage[StorageKey] != "" then
      match parse(s.storage[StorageKey])
      case Some(u) => s.(user := Some(u), isLoading := false)
      case None => s
    else
      s.(isLoading := false)
  }

  /**
   * `login(username, password)`: the new state and the returned boolean. Success exactly when the
   * response is ok and its body says success; only then do the user and the stored entry change, both
   * to `{username, role}`. Loading is over afterwards on every path.
   */
  function LoginStep(s: AuthState, username: string, reply: LoginReply, stringify: User -> string): (r: (AuthState, bool))
    ensures r.1 <==> reply.Replied? && reply.ok && reply.success
    ensures !r.0.isLoading
    ensures r.1 ==> r.0.user == Some(User(username, reply.role))
                    && r.0.storage == s.storage[StorageKey := stringify(User(username, reply.role))]
    ensures !r.1 ==> r.0.user == s.user && r.0.storage == s.storage
  {
    if reply.Replied? && reply.ok && reply.success then
      var u := User(username, reply.role);
      (AuthState(Some(u), false, s.storage[StorageKey := stringify(u)]), true)
    else
      (s.(isLoading := false), false)
  }

  /** `logout()`: nobody is signed in and the stored entry is gone; loading is untouched. */
  function LogoutStep(s: AuthState): (r: AuthState)
    ensures r.user == None && StorageKey !in r.storage && r.isLoading == s.isLoading
    ensures forall k :: k in r.storage <==> k in s.storage && k != StorageKey
    ensures forall k :: k in r.storage ==> r.storage[k] == s.storage[k]
  {
    s.(user := None, storage := s.storage - {StorageKey})
  }

  /** The before-unload handler: it signs out (as logout does) only when somebody is signed in. */
  function BeforeUnloadStep(s: AuthState): (r: AuthState)
    ensures s.user == None ==> r == s
    ensures s.user != None ==> r == LogoutStep(s)
  {
    if s.user.Some? then LogoutStep(s) else s
  }

  /** Signing out twice is signing out once. */
  lemma LogoutIdempotent(s: AuthState)
    ensures LogoutStep(LogoutStep(s)) == LogoutStep(s)
  {
    assert LogoutStep(s).storage - {StorageKey} == LogoutStep(s).storage;
  }

  /** After the unload handler has run, running it again changes nothing. */
  lemma BeforeUnloadIdempotent(s: AuthState)
    ensures BeforeUnloadStep(BeforeUnloadStep(s)) == BeforeUnloadStep(s)
  {
  }

  /**
   * A successful login survives a page load: a newly mounted provider restores the same user, provided
   * `JSON.parse` reads back what `JSON.stringify` wrote (a JSON object text is never empty).
   */
  lemma LoginThenRestore(s: AuthState, username: string, role: string,
                         stringify: User -> string, parse: string -> Option<User>)
    requires stringify(User(username, role)) != ""
    requires parse(stringify(User(username, role))) == Some(User(username, role))
    ensures var (after, ok) := LoginStep(s, username, Replied(true, true, role), stringify);
            ok && RestoreStep(Initial(after.storage), parse) == AuthState(Some(User(username, role)), false, after.storage)
  {
  }

  /** After sign-out, a newly mounted provider restores nobody and stops loading. */
  lemma LogoutThenRestore(s: AuthState, parse: string -> Option<User>)
    ensures var after := LogoutStep(s);
            RestoreStep(Initial(after.storage), parse) == AuthState(None, false, after.storage)
  {
  }

  /** The provider object, its fields being the React state and the sessionStorage it writes. */
  class AuthProvider {
    var user: Option<User>
    var isLoading: bool
    var storage: map<string, string>
    /** `JSON.stringify` and `JSON.parse` on the stored user (parse returning None where it would throw). */
    const stringify: User -> string
    const parse: string -> Option<User>

    function State(): AuthState
      reads this
    {
      AuthState(user, isLoading, storage)
    }

    constructor (sessionStorage: map<string, string>, stringify: User -> string, parse: string -> Option<User>)
      ensures State() == Initial(sessionStorage)
      ensures this.stringify == stringify && this.parse == parse
    {
      user := None;
      isLoading := true;
      storage := sessionStorage;
      this.stringify := stringify;
      this.parse := parse;
    }

    /** The mount effect that restores a user kept in sessionStorage. */
    method Restore()
      modifies this
      ensures State() == RestoreStep(old(State()), parse)
    {
      if StorageKey in storage && storage[StorageKey] != "" {
        var parsed := parse(storage[StorageKey]);
        if parsed.None? {
          return;
        }
        user := parsed;
      }
      isLoading := false;
    }

    /** `login`; the password only travels in the request body, which the reply stands for. */
    method Login(username: string, password: string, reply: LoginReply) returns (ok: bool)
      modifies this
      ensures (State(), ok) == LoginStep(old(State()), username, reply, stringify)
    {
      isLoading := true;
      ok := false;
      if reply.Replied? {
        if reply.ok && reply.success {
          var loggedUser := User(username, reply.role);
          user := Some(loggedUser);
          storage := storage[StorageKey := stringify(loggedUser)];
          ok := true;
        }
      }
      isLoading := false;
    }

    method Logout()
      modifies this
      ensures State() == LogoutStep(old(State()))
    {
      user := None;
      storage := storage - {StorageKey};
    }

    method HandleBeforeUnload()
      modifies this
      ensures State() == BeforeUnloadStep(old(State()))
    {
      if user.Some? {
        storage := storage - {StorageKey};
        user := None;
      }
    }
  }
}
