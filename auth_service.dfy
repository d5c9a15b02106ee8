/**
 * The backend's older credential check: a username lookup followed by a plain string comparison of
 * the stored password with the one given. There is no hashing on this path.
 */
module AuthService {
  import opened Wrappers
  import opened UserTable

  /** The method's result, or the exception the lookup raises when several rows share the name. */
  datatype Answer<+T> = Returned(value: T) | Raised

  /** `getRoleIfValid(username, password)`: the stored role, or null. */
  function RoleIfValid(users: seq<User>, username: string, password: string): (r: Answer<Option<string>>)
    ensures r.Raised? <==> FindByUsername(users, Some(username)).ManyUsers?
    ensures r == Returned(None) <==>
              FindByUsername(users, Some(username)).NoUser? ||
              (FindByUsername(users, Some(username)).OneUser? && FindByUsername(users, Some(username)).user.password != password)
    ensures r.Returned? && r.value.Some? ==>
              exists u :: u in users && u.username == username && u.password == password && u.role == r.value.value
  {
    match FindByUsername(users, Some(username))
    case ManyUsers => Raised
    case NoUser => Returned(None)
    case OneUser(u) => if u.password == password then Returned(Some(u.role)) else Returned(None)
  }

  /** An unknown username gives null. */
  lemma UnknownUserGetsNull(users: seq<User>, username: string, password: string)
    requires forall i :: 0 <= i < |users| ==> users[i].username != username
    ensures RoleIfValid(users, username, password) == Returned(None)
  {
    assert forall u :: u in users ==> Some(u.username) != Some(username);
  }

  /** With distinct usernames: the stored role exactly when the stored password equals the given one. */
  lemma RoleExactlyOnEqualPassword(users: seq<User>, i: nat, password: string)
    requires DistinctUsernames(users) && i < |users|
    ensures RoleIfValid(users, users[i].username, password) ==
              if users[i].password == password then Returned(Some(users[i].role)) else Returned(None)
  {
    FindsTheStoredUser(users, i);
  }

  /** A user whose password is stored as a BCrypt hash is accepted only when the hash text itself is
      given: any other password, in particular the plain text it was hashed from, gets null. */
  lemma HashIsComparedAsText(users: seq<User>, i: nat, password: string)
    requires DistinctUsernames(users) && i < |users| && password != users[i].password
    ensures RoleIfValid(users, users[i].username, password) == Returned(None)
    ensures RoleIfValid(users, users[i].username, users[i].password) == Returned(Some(users[i].role))
  {
    RoleExactlyOnEqualPassword(users, i, password);
    RoleExactlyOnEqualPassword(users, i, users[i].password);
  }
}
