/**
 * The user-management controller under `/api/users`: the user count with its per-role breakdown, and
 * the creation of a user from a multipart form (photo upload, encoded password, role as given).
 */
module UserController {
  import opened Wrappers
  import opened UserTable

  // ---------------------------------------------------------------- per-role counts

  /** One row of `SELECT u.role, COUNT(u) FROM User u GROUP BY u.role`. */
  datatype RoleRow = RoleRow(role: string, count: int)

  /** The map after `roleWiseMap.put(role, count)` for every row in order; a later row wins. */
  function RoleMap(rows: seq<RoleRow>): (m: map<string, int>)
    decreases |rows|
  {
    if |rows| == 0 then map[]
    else RoleMap(rows[..|rows| - 1])[rows[|rows| - 1].role := rows[|rows| - 1].count]
  }

  /** The keys of the map are exactly the roles of the rows. */
  lemma {:induction false} RoleMapKeys(rows: seq<RoleRow>)
    ensures forall r :: r in RoleMap(rows) <==> exists i :: 0 <= i < |rows| && rows[i].role == r
    decreases |rows|
  {
    if |rows| > 0 {
      var init := rows[..|rows| - 1];
      RoleMapKeys(init);
      forall r ensures r in RoleMap(rows) <==> exists i :: 0 <= i < |rows| && rows[i].role == r {
        if r in RoleMap(init) {
          var i :| 0 <= i < |init| && init[i].role == r;
          assert rows[i].role == r;
        }
        if exists i :: 0 <= i < |rows| && rows[i].role == r {
          var i :| 0 <= i < |rows| && rows[i].role == r;
          if i < |rows| - 1 { assert init[i].role == r; }
        }
      }
    }
  }

  predicate DistinctRoles(rows: seq<RoleRow>) {
    forall i, j :: 0 <= i < j < |rows| ==> rows[i].role != rows[j].role
  }

  /** With distinct roles every row's count is what the map holds for its role. */
  lemma {:induction false} RoleMapValues(rows: seq<RoleRow>, i: nat)
    requires DistinctRoles(rows) && i < |rows|
    ensures rows[i].role in RoleMap(rows) && RoleMap(rows)[rows[i].role] == rows[i].count
    decreases |rows|
  {
    if i < |rows| - 1 {
      var init := rows[..|rows| - 1];
      assert DistinctRoles(init) by {
        forall a, b | 0 <= a < b < |init| ensures init[a].role != init[b].role {
          assert rows[a].role != rows[b].role;
        }
      }
      assert init[i] == rows[i];
      RoleMapValues(init, i);
      assert rows[i].role != rows[|rows| - 1].role;
    }
  }

  /** How many users have role `r`. */
  function CountRole(users: seq<User>, r: string): (n: nat)
    ensures n <= |users|
  {
    if |users| == 0 then 0 else (if users[0].role == r then 1 else 0) + CountRole(users[1..], r)
  }

  /** The sum of the rows' counts. */
  function SumCounts(rows: seq<RoleRow>): int {
    if |rows| == 0 then 0 else rows[0].count + SumCounts(rows[1..])
  }

  /** The rows the grouped query answers for `users`: one row per role that occurs, holding its count. */
  predicate IsGroupBy(rows: seq<RoleRow>, users: seq<User>) {
    DistinctRoles(rows) &&
    (forall i :: 0 <= i < |rows| ==> rows[i].count == CountRole(users, rows[i].role)) &&
    (forall k :: 0 <= k < |users| ==> exists i :: 0 <= i < |rows| && rows[i].role == users[k].role)
  }

  /** Σ over the rows of the number of `users` with the row's role. */
  function SumOver(rows: seq<RoleRow>, users: seq<User>): int {
    if |rows| == 0 then 0 else CountRole(users, rows[0].role) + SumOver(rows[1..], users)
  }

  /** How many rows carry role `r`. */
  function RowsWithRole(rows: seq<RoleRow>, r: string): nat {
    if |rows| == 0 then 0 else (if rows[0].role == r then 1 else 0) + RowsWithRole(rows[1..], r)
  }

  lemma {:induction false} SumCountsIsSumOver(rows: seq<RoleRow>, users: seq<User>)
    requires forall i :: 0 <= i < |rows| ==> rows[i].count == CountRole(users, rows[i].role)
    ensures SumCounts(rows) == SumOver(rows, users)
    decreases |rows|
  {
    if |rows| > 0 {
      SumCountsIsSumOver(rows[1..], users);
    }
  }

  /** Moving one user out of the list lowers the sum by the number of rows with that user's role. */
  lemma {:induction false} SumOverFirstUser(rows: seq<RoleRow>, users: seq<User>)
    requires |users| > 0
    ensures SumOver(rows, users) == RowsWithRole(rows, users[0].role) + SumOver(rows, users[1..])
    decreases |rows|
  {
    if |rows| > 0 {
      SumOverFirstUser(rows[1..], users);
    }
  }

  /** With distinct roles, a role that occurs in the rows occurs exactly once. */
  lemma {:induction false} DistinctRoleOnce(rows: seq<RoleRow>, k: nat)
    requires DistinctRoles(rows) && k < |rows|
    ensures RowsWithRole(rows, rows[k].role) == 1
    decreases |rows|
  {
    var tail := rows[1..];
    assert DistinctRoles(tail) by {
      forall a, b | 0 <= a < b < |tail| ensures tail[a].role != tail[b].role {
        assert rows[a + 1].role != rows[b + 1].role;
      }
    }
    if k == 0 {
      NoRowWithRole(tail, rows[0].role);
    } else {
      assert rows[0].role != rows[k].role;
      assert tail[k - 1] == rows[k];
      DistinctRoleOnce(tail, k - 1);
    }
  }

  lemma {:induction false} NoRowWithRole(rows: seq<RoleRow>, r: string)
    requires forall i :: 0 <= i < |rows| ==> rows[i].role != r
    ensures RowsWithRole(rows, r) == 0
    decreases |rows|
  {
    if |rows| > 0 {
      NoRowWithRole(rows[1..], r);
    }
  }

  /** Under GROUP BY the role counts add up to the number of users, which is what `count()` answers:
      the breakdown and `totalUsers` agree. */
  lemma GroupCountsSumToTotal(rows: seq<RoleRow>, users: seq<User>)
    requires IsGroupBy(rows, users)
    ensures SumCounts(rows) == |users|
  {
    SumCountsIsSumOver(rows, users);
    assert forall k :: 0 <= k < |users| ==> HasRow(rows, users[k].role);
    CoveredSumOver(rows, users);
  }

  /** Some row carries role `r`. */
  predicate HasRow(rows: seq<RoleRow>, r: string) {
    exists i :: 0 <= i < |rows| && rows[i].role == r
  }

  lemma {:induction false} CoveredSumOver(rows: seq<RoleRow>, users: seq<User>)
    requires DistinctRoles(rows)
    requires forall k :: 0 <= k < |users| ==> HasRow(rows, users[k].role)
    ensures SumOver(rows, users) == |users|
    decreases |users|
  {
    if |users| == 0 {
      ZeroSumOver(rows, users);
    } else {
      var tail := users[1..];
      assert forall k :: 0 <= k < |tail| ==> tail[k] == users[k + 1];
      CoveredSumOver(rows, tail);
      SumOverFirstUser(rows, users);
      assert HasRow(rows, users[0].role);
      var i :| 0 <= i < |rows| && rows[i].role == users[0].role;
      DistinctRoleOnce(rows, i);
    }
  }

  lemma {:induction false} ZeroSumOver(rows: seq<RoleRow>, users: seq<User>)
    requires |users| == 0
    ensures SumOver(rows, users) == 0
    decreases |rows|
  {
    if |rows| > 0 {
      ZeroSumOver(rows[1..], users);
    }
  }

  // ---------------------------------------------------------------- adding a user

  /** What the image host does with the photo: the secure URL, or an `IOException` with its message. */
  datatype Upload = Uploaded(secureUrl: string) | UploadFailed(message: Option<string>)

  /** The answer of `addUser`: 201 with the message and the new id, or 500 with the error text. */
  datatype AddReply = Created(message: string, userId: int) | PhotoError(text: string)

  function AddStatus(r: AddReply): (code: int)
    ensures code == 201 <==> r.Created?
    ensures code == 500 <==> r.PhotoError?
  {
    if r.Created? then 201 else 500
  }

  /** The user that `addUser` builds: username = loginId, the encoded password, the role verbatim. */
  function NewUser(loginId: string, password: string, role: string, photoUrl: string, encode: string -> string): (u: User)
    ensures u.id.None? && u.username == loginId && u.password == encode(password) && u.role == role
    ensures u.photoUrl == Some(photoUrl)
  {
    User(None, loginId, encode(password), role, Some(photoUrl))
  }

  /** An encoder that never returns its input keeps the plain text out of the table. */
  lemma PlainTextNeverStored(loginId: string, password: string, role: string, photoUrl: string, encode: string -> string)
    requires forall p :: encode(p) != p
    ensures NewUser(loginId, password, role, photoUrl, encode).password != password
  {
  }

  /** The controller over the users repository. */
  class UserEndpoints {
    const repository: UserRepository

    constructor (repository: UserRepository)
      ensures this.repository == repository
    {
      this.repository := repository;
    }

    /** `GET /total`: `totalUsers` is the repository count; `roleWiseCount` holds the grouped rows. */
    method GetUserCounts(roleCounts: seq<RoleRow>) returns (totalUsers: int, roleWiseCount: map<string, int>)
      ensures totalUsers == |repository.users|
      ensures roleWiseCount == RoleMap(roleCounts)
    {
      totalUsers := repository.Count();
      var roleWiseMap: map<string, int> := map[];
      var i := 0;
      while i < |roleCounts|
        invariant 0 <= i <= |roleCounts|
        invariant roleWiseMap == RoleMap(roleCounts[..i])
      {
        var row := roleCounts[i];
        roleWiseMap := roleWiseMap[row.role := row.count];
        i := i + 1;
        assert roleCounts[..i][..i - 1] == roleCounts[..i - 1];
      }
      assert roleCounts[..i] == roleCounts;
      roleWiseCount := roleWiseMap;
    }

    /** `POST /add`: after a successful upload the user is saved and 201 carries its id; an upload
        failure saves nothing and answers 500. */
    method AddUser(photo: seq<bv8>, loginId: string, password: string, role: string, upload: Upload,
                   encode: string -> string) returns (reply: AddReply)
      requires repository.Valid()
      modifies repository
      ensures repository.Valid()
      ensures upload.UploadFailed? ==>
                repository.users == old(repository.users) && repository.nextId == old(repository.nextId) &&
                reply == PhotoError("Error processing photo: " + upload.message.GetOr("null"))
      ensures upload.Uploaded? ==>
                reply == Created("User created successfully", old(repository.nextId)) &&
                repository.users ==
                  old(repository.users) + [NewUser(loginId, password, role, upload.secureUrl, encode).(id := Some(old(repository.nextId)))]
    {
      match upload
      case UploadFailed(message) =>
        return PhotoError("Error processing photo: " + message.GetOr("null"));
      case Uploaded(photoUrl) =>
        var user := User(None, loginId, encode(password), role, Some(photoUrl));
        var saved := repository.Save(user);
        reply := Created("User created successfully", saved.id.value);
    }
  }

  /** With the rows of the grouped query for the stored users, the breakdown's counts sum to the total
      and each role maps to its number of users. */
  lemma CountsAgree(rows: seq<RoleRow>, users: seq<User>, i: nat)
    requires IsGroupBy(rows, users) && i < |rows|
    ensures SumCounts(rows) == |users|
    ensures rows[i].role in RoleMap(rows) && RoleMap(rows)[rows[i].role] == CountRole(users, rows[i].role)
  {
    GroupCountsSumToTotal(rows, users);
    RoleMapValues(rows, i);
  }
}
