/**
 * `POST /auth/login`: looks the user up by name, checks the password (by BCrypt when the stored value
 * carries the "$2a$" prefix, as plain text otherwise) and answers a JSON map with `success` and either
 * `message` or `role`.
 */
module AuthController {
  import opened Wrappers
  import opened Text
  import opened UserTable

  /** The values the response map holds. */
  datatype Json = JBool(b: bool) | JText(text: string)

  /** The answer: a status and the response map, or the framework's 500 for an exception. */
  datatype LoginReply = Reply(status: int, body: map<string, Json>) | ServerError

  const InvalidCredentials := "Invalid username or password"

  /** The body of both refusals. */
  function Refusal(): (m: map<string, Json>)
    ensures m.Keys == {"success", "message"}
    ensures m["success"] == JBool(false) && m["message"] == JText(InvalidCredentials)
  {
    map["success" := JBool(false), "message" := JText(InvalidCredentials)]
  }

  /** The body of a success. */
  function Granted(role: string): (m: map<string, Json>)
    ensures m.Keys == {"success", "role"}
    ensures m["success"] == JBool(true) && m["role"] == JText(role)
  {
    map["success" := JBool(true), "role" := JText(role)]
  }

  /** The prefix the check takes as the mark of a BCrypt hash. */
  const BCryptPrefix := "$2a$"

  /** The password check: `matches(password, stored)` for a "$2a$" hash (which rejects a null password
      with an exception, here None); `stored.equals(password)` otherwise, false for null. */
  function PasswordMatches(stored: string, password: Option<string>, bcryptMatches: (string, string) -> bool): (r: Option<bool>)
    ensures StartsWith(stored, BCryptPrefix) && password.Some? ==> r == Some(bcryptMatches(password.value, stored))
    ensures StartsWith(stored, BCryptPrefix) && password.None? ==> r.None?
    ensures !StartsWith(stored, BCryptPrefix) ==> r == Some(password == Some(stored))
  {
    if StartsWith(stored, BCryptPrefix) then
      if password.Some? then Some(bcryptMatches(password.value, stored)) else None
    else Some(password == Some(stored))
  }

  /** `login(loginData)`; a missing key reads as null. */
  function Login(users: seq<User>, loginData: map<string, string>, bcryptMatches: (string, string) -> bool): (r: LoginReply)
    ensures FindByUsername(users, Lookup(loginData, "username")).NoUser? ==> r == Reply(401, Refusal())
    ensures r.Reply? ==> r.status == 200 || r == Reply(401, Refusal())
    ensures r.Reply? && r.status == 200 ==>
              var found := FindByUsername(users, Lookup(loginData, "username"));
              found.OneUser? && r.body == Granted(found.user.role) &&
              PasswordMatches(found.user.password, Lookup(loginData, "password"), bcryptMatches) == Some(true)
  {
    var username := Lookup(loginData, "username");
    var password := Lookup(loginData, "password");
    match FindByUsername(users, username)
    case NoUser => Reply(401, Refusal())
    case ManyUsers => ServerError
    case OneUser(u) =>
      match PasswordMatches(u.password, password, bcryptMatches)
      case None => ServerError
      case Some(ok) => if ok then Reply(200, Granted(u.role)) else Reply(401, Refusal())
  }

  /** `map.get(key)`. */
  function Lookup(m: map<string, string>, key: string): Option<string> {
    if key in m then Some(m[key]) else None
  }

  /** The credentials of a login form. */
  function Credentials(username: string, password: string): (m: map<string, string>)
    ensures Lookup(m, "username") == Some(username) && Lookup(m, "password") == Some(password)
  {
    map["username" := username, "password" := password]
  }

  /** For a stored password without the "$2a$" prefix, success is exactly equality of the texts; so a
      "$2b$" or "$2y$" hash is compared as plain text. */
  lemma PlainTextComparison(users: seq<User>, i: nat, password: string, bcryptMatches: (string, string) -> bool)
    requires DistinctUsernames(users) && i < |users| && !StartsWith(users[i].password, BCryptPrefix)
    ensures var r := Login(users, Credentials(users[i].username, password), bcryptMatches);
            r.Reply? && (r.status == 200 <==> password == users[i].password)
  {
    FindsTheStoredUser(users, i);
  }

  /** A "$2b$" hash is not taken for BCrypt. */
  lemma OtherBCryptVersionsAreText(stored: string)
    requires |stored| >= 4 && stored[..4] == "$2b$"
    ensures !StartsWith(stored, BCryptPrefix)
  {
    assert stored[..4][2] == 'b';
  }

  /** For a "$2a$" hash the outcome is BCrypt's verdict. */
  lemma HashComparison(users: seq<User>, i: nat, password: string, bcryptMatches: (string, string) -> bool)
    requires DistinctUsernames(users) && i < |users| && StartsWith(users[i].password, BCryptPrefix)
    ensures var r := Login(users, Credentials(users[i].username, password), bcryptMatches);
            r.Reply? && (r.status == 200 <==> bcryptMatches(password, users[i].password))
  {
    FindsTheStoredUser(users, i);
  }

  /** A wrong password gets the very answer an unknown username gets. */
  lemma WrongPasswordLooksLikeUnknownUser(users: seq<User>, i: nat, password: string, stranger: string,
                                          bcryptMatches: (string, string) -> bool)
    requires DistinctUsernames(users) && i < |users| && !StartsWith(users[i].password, BCryptPrefix)
    requires password != users[i].password
    requires forall j :: 0 <= j < |users| ==> users[j].username != stranger
    ensures Login(users, Credentials(users[i].username, password), bcryptMatches) ==
            Login(users, Credentials(stranger, password), bcryptMatches) == Reply(401, Refusal())
  {
    FindsTheStoredUser(users, i);
    assert forall u :: u in users ==> Some(u.username) != Some(stranger);
  }

  /** Success, with the stored role, exactly when the user exists and the password matches. */
  lemma SuccessExactlyOnMatch(users: seq<User>, i: nat, password: string, bcryptMatches: (string, string) -> bool)
    requires DistinctUsernames(users) && i < |users|
    ensures var r := Login(users, Credentials(users[i].username, password), bcryptMatches);
            (r == Reply(200, Granted(users[i].role))) <==>
            PasswordMatches(users[i].password, Some(password), bcryptMatches) == Some(true)
  {
    FindsTheStoredUser(users, i);
  }
}
