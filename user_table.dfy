/**
 * The backend's user table, shared by the login check, the user controller and the start-up seeder:
 * the `User` row, the derived query `findByUsername`, and the repository that appends saved users
 * under generated ids.
 */
module UserTable {
  import opened Wrappers
  import opened Seqs

  /** A row of the users table. A role is whatever text was saved ("ADMIN", "Patrol Officer", ...). */
  datatype User = User(id: Option<int>, username: string, password: string, role: string, photoUrl: Option<string>)

  /** The answer of `findByUsername`: no row, the one row, or more than one row (the query then throws
      instead of returning an `Optional`). */
  datatype Lookup = NoUser | OneUser(user: User) | ManyUsers

  function WithName(users: seq<User>, name: Option<string>): (r: seq<User>)
    ensures forall u :: u in r <==> u in users && Some(u.username) == name
  {
    Filter(users, (u: User) => Some(u.username) == name)
  }

  /** `findByUsername(name)`; a null name matches no row, since every stored row has a username. */
  function FindByUsername(users: seq<User>, name: Option<string>): (r: Lookup)
    ensures r.NoUser? <==> forall u :: u in users ==> Some(u.username) != name
    ensures r.OneUser? ==> r.user in users && Some(r.user.username) == name
    ensures name.None? ==> r.NoUser?
  {
    var matching := WithName(users, name);
    if |matching| == 0 then NoUser
    else if |matching| == 1 then OneUser(matching[0])
    else ManyUsers
  }

  predicate DistinctUsernames(users: seq<User>) {
    forall i, j :: 0 <= i < j < |users| ==> users[i].username != users[j].username
  }

  /** With distinct usernames the lookup of any stored name finds exactly that row. */
  lemma FindsTheStoredUser(users: seq<User>, i: nat)
    requires DistinctUsernames(users) && i < |users|
    ensures FindByUsername(users, Some(users[i].username)) == OneUser(users[i])
  {
    var name := Some(users[i].username);
    var matching := WithName(users, name);
    forall x | x in multiset(matching) ensures x == users[i] {
      assert x in matching;
    }
    CountOnlyOne(users, i);
    assert multiset(matching)[users[i]] == 1;
    SingletonMultiset(matching, users[i]);
  }

  /** With distinct usernames a stored username occurs exactly once. */
  lemma CountOnlyOne(users: seq<User>, i: nat)
    requires DistinctUsernames(users) && i < |users|
    ensures multiset(users)[users[i]] == 1
  {
    var x := users[i];
    assert users == users[..i] + [x] + users[i + 1..];
    assert x !in users[..i] by {
      forall j | 0 <= j < i ensures users[..i][j] != x { assert users[j].username != users[i].username; }
    }
    assert x !in users[i + 1..] by {
      forall k | i + 1 <= k < |users| ensures users[k] != x {
        assert users[i].username != users[k].username;
      }
    }
    assert multiset(users) == multiset(users[..i]) + multiset{x} + multiset(users[i + 1..]);
  }

  /** A sequence whose multiset holds only `x`, once, is `[x]`. */
  lemma SingletonMultiset(s: seq<User>, x: User)
    requires multiset(s)[x] == 1
    requires forall y :: y in multiset(s) ==> y == x
    ensures s == [x]
  {
    assert |multiset(s)| == 1 by {
      assert multiset(s) == multiset{x};
    }
    assert s[0] in multiset(s);
  }

  /** The users repository: rows in the order they were saved, and the next generated id. */
  class UserRepository {
    var users: seq<User>
    var nextId: int

    predicate Valid()
      reads this
    {
      forall i :: 0 <= i < |users| ==> users[i].id.Some? && users[i].id.value < nextId
    }

    constructor (initial: seq<User>, nextId: int)
      requires forall i :: 0 <= i < |initial| ==> initial[i].id.Some? && initial[i].id.value < nextId
      ensures users == initial && this.nextId == nextId && Valid()
    {
      users := initial;
      this.nextId := nextId;
    }

    /** `count()`. */
    function Count(): nat
      reads this
    {
      |users|
    }

    /** `save(user)` for a user built with no id: the row is appended under the next generated id. */
    method Save(user: User) returns (saved: User)
      requires Valid() && user.id.None?
      modifies this
      ensures Valid()
      ensures saved == user.(id := Some(old(nextId))) && users == old(users) + [saved] && nextId == old(nextId) + 1
    {
      saved := user.(id := Some(nextId));
      users := users + [saved];
      nextId := nextId + 1;
    }
  }
}
