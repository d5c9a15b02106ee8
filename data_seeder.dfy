/**
 * The start-up seeder: on an empty users table it saves five default accounts, nine more admins
 * (admin2 … admin10) and one officer for every number from 2 to 104, each with a role drawn at
 * random from the four officer roles; on a non-empty table it does nothing. Passwords go through the
 * configured encoder, and the random draws are an input.
 */
module DataSeeder {
  import opened Wrappers
  import opened Text
  import opened UserTable
  import opened UserController
  import opened AuthController

  const OfficerRoles: seq<string> := ["PATROL", "DESK", "FIELD", "INVESTIGATING"]

  /** Five defaults, nine admins and the officers numbered 2 to 104. */
  const SeedSize := 117

  /** The draws of `random.nextInt(4)`, one per officer. */
  predicate ValidDraws(draws: seq<int>) {
    |draws| == 103 && forall k :: 0 <= k < |draws| ==> 0 <= draws[k] < |OfficerRoles|
  }

  /** `String.format("%02d", i)`: at least two digits, zero-padded. */
  function Pad2(i: nat): (s: string)
    ensures |s| > 0
    ensures forall k :: 0 <= k < |s| ==> IsDigit(s[k])
  {
    if i < 10 then "0" + NatToString(i) else NatToString(i)
  }

  // ---------------------------------------------------------------- the seeded rows

  function DefaultUsers(encode: string -> string): seq<User> {
    [ User(None, "admin", encode("admin123"), "ADMIN", None),
      User(None, "patrol01", encode("patrol123"), "PATROL", None),
      User(None, "desk01", encode("desk123"), "DESK", None),
      User(None, "field01", encode("field123"), "FIELD", None),
      User(None, "inv01", encode("inv123"), "INVESTIGATING", None) ]
  }

  /** The admin of the second loop, for `i` from 2 to 10. */
  function AdditionalAdmin(i: nat, encode: string -> string): User {
    User(None, "admin" + NatToString(i), encode("admin123"), "ADMIN", None)
  }

  /** The officer of the third loop: the role's lower case as name prefix and password stem. */
  function Officer(i: nat, role: string, encode: string -> string): User {
    User(None, ToLower(role) + Pad2(i), encode(ToLower(role) + "123"), role, None)
  }

  /** The `p`-th user saved, before the repository gives it an id. */
  function SeedUser(p: nat, draws: seq<int>, encode: string -> string): (u: User)
    requires ValidDraws(draws) && p < SeedSize
    ensures u.id.None? && u.photoUrl.None?
    ensures u.role == "ADMIN" <==> p == 0 || 5 <= p < 14
    ensures p >= 14 ==> u.role == OfficerRoles[draws[p - 14]] && u.password == encode(ToLower(u.role) + "123")
  {
    if p < 5 then DefaultUsers(encode)[p]
    else if p < 14 then AdditionalAdmin(p - 3, encode)
    else Officer(p - 12, OfficerRoles[draws[p - 14]], encode)
  }

  /** The table after seeding an empty repository whose next id is `firstId`. */
  function Seeded(draws: seq<int>, encode: string -> string, firstId: int): (s: seq<User>)
    requires ValidDraws(draws)
    ensures |s| == SeedSize
    ensures forall p :: 0 <= p < SeedSize ==> s[p] == SeedUser(p, draws, encode).(id := Some(firstId + p))
  {
    seq(SeedSize, p requires 0 <= p < SeedSize => SeedUser(p, draws, encode).(id := Some(firstId + p)))
  }

  // ---------------------------------------------------------------- the usernames are distinct

  predicate NoDigits(s: string) {
    forall k :: 0 <= k < |s| ==> !IsDigit(s[k])
  }

  predicate AllDigits(s: string) {
    forall k :: 0 <= k < |s| ==> IsDigit(s[k])
  }

  /** The lower-cased officer roles. */
  lemma LowerOfficerRoles()
    ensures ToLower(OfficerRoles[0]) == "patrol" && ToLower(OfficerRoles[1]) == "desk"
    ensures ToLower(OfficerRoles[2]) == "field" && ToLower(OfficerRoles[3]) == "investigating"
  {
    assert ToLower("PATROL") == "patrol" by { assert forall k :: 0 <= k < 6 ==> ToLower("PATROL")[k] == "patrol"[k]; }
    assert ToLower("DESK") == "desk" by { assert forall k :: 0 <= k < 4 ==> ToLower("DESK")[k] == "desk"[k]; }
    assert ToLower("FIELD") == "field" by { assert forall k :: 0 <= k < 5 ==> ToLower("FIELD")[k] == "field"[k]; }
    assert ToLower("INVESTIGATING") == "investigating" by {
      assert forall k :: 0 <= k < 13 ==> ToLower("INVESTIGATING")[k] == "investigating"[k];
    }
  }

  /** The letters before the number in the `p`-th username. */
  function NamePrefix(p: nat, draws: seq<int>): (s: string)
    requires ValidDraws(draws) && p < SeedSize
    ensures NoDigits(s)
  {
    LowerOfficerRoles();
    if p == 0 || 5 <= p < 14 then "admin"
    else if p < 5 then ["patrol", "desk", "field", "inv"][p - 1]
    else ToLower(OfficerRoles[draws[p - 14]])
  }

  /** The number in the `p`-th username, as written. */
  function NameSuffix(p: nat): (s: string)
    requires p < SeedSize
    ensures AllDigits(s)
  {
    if p == 0 then ""
    else if p < 5 then "01"
    else if p < 14 then NatToString(p - 3)
    else Pad2(p - 12)
  }

  lemma NameSplits(p: nat, draws: seq<int>, encode: string -> string)
    requires ValidDraws(draws) && p < SeedSize
    ensures SeedUser(p, draws, encode).username == NamePrefix(p, draws) + NameSuffix(p)
  {
    if p == 1 { assert "patrol01" == "patrol" + "01"; }
    if p == 2 { assert "desk01" == "desk" + "01"; }
    if p == 3 { assert "field01" == "field" + "01"; }
    if p == 4 { assert "inv01" == "inv" + "01"; }
    if p == 0 { assert "admin" == "admin" + ""; }
  }

  /** How many characters precede the first digit. */
  function LeadingNonDigits(s: string): (n: nat)
    ensures n <= |s|
  {
    if |s| == 0 || IsDigit(s[0]) then 0 else 1 + LeadingNonDigits(s[1..])
  }

  lemma {:induction false} LeadingNonDigitsOfSplit(a: string, b: string)
    requires NoDigits(a) && AllDigits(b)
    ensures LeadingNonDigits(a + b) == |a|
    decreases |a|
  {
    if |a| > 0 {
      assert (a + b)[1..] == a[1..] + b;
      LeadingNonDigitsOfSplit(a[1..], b);
    } else {
      assert a + b == b;
    }
  }

  /** Letters followed by digits split in only one way. */
  lemma SplitUnique(a: string, b: string, c: string, d: string)
    requires NoDigits(a) && NoDigits(c) && AllDigits(b) && AllDigits(d)
    ensures a + b == c + d ==> a == c && b == d
  {
    LeadingNonDigitsOfSplit(a, b);
    LeadingNonDigitsOfSplit(c, d);
    if a + b == c + d {
      assert a == (a + b)[..|a|] && c == (c + d)[..|c|];
      assert b == (a + b)[|a|..] && d == (c + d)[|c|..];
    }
  }

  /** A leading zero does not change the number read. */
  lemma {:induction false} LeadingZero(s: string)
    requires AllDigits(s)
    ensures ParseDigits("0" + s) == ParseDigits(s)
    decreases |s|
  {
    if |s| == 0 {
      assert ("0" + s)[..0] == [];
    } else {
      var t := "0" + s;
      assert t[..|t| - 1] == "0" + s[..|s| - 1];
      LeadingZero(s[..|s| - 1]);
    }
  }

  lemma Pad2Reads(i: nat)
    ensures ParseDigits(Pad2(i)) == i
  {
    ParseNatToString(i);
    if i < 10 {
      LeadingZero(NatToString(i));
    }
  }

  /** Two different positions get different (prefix, number) pairs. */
  lemma PartsDiffer(p: nat, q: nat, draws: seq<int>)
    requires ValidDraws(draws) && p < q < SeedSize
    ensures NamePrefix(p, draws) != NamePrefix(q, draws) || NameSuffix(p) != NameSuffix(q)
  {
    if p == 0 {
      FirstPartsDiffer(q, draws);
    } else if p < 5 {
      DefaultPartsDiffer(p, q, draws);
    } else if p < 14 {
      AdminPartsDiffer(p, q, draws);
    } else {
      OfficerPartsDiffer(p, q, draws);
    }
  }

  lemma FirstPartsDiffer(q: nat, draws: seq<int>)
    requires ValidDraws(draws) && 0 < q < SeedSize
    ensures NameSuffix(0) != NameSuffix(q)
  {
    assert |NameSuffix(q)| > 0;
  }

  lemma OfficerPartsDiffer(p: nat, q: nat, draws: seq<int>)
    requires ValidDraws(draws) && 14 <= p < q < SeedSize
    ensures NameSuffix(p) != NameSuffix(q)
  {
    Pad2Reads(p - 12);
    Pad2Reads(q - 12);
  }

  lemma DefaultPartsDiffer(p: nat, q: nat, draws: seq<int>)
    requires ValidDraws(draws) && 1 <= p < 5 && p < q < SeedSize
    ensures NamePrefix(p, draws) != NamePrefix(q, draws) || NameSuffix(p) != NameSuffix(q)
  {
    if q >= 14 {
      Pad2Reads(q - 12);
      assert ParseDigits("01") == 1;
    } else {
      assert NamePrefix(p, draws) == ["patrol", "desk", "field", "inv"][p - 1];
      assert q < 5 ==> NamePrefix(q, draws) == ["patrol", "desk", "field", "inv"][q - 1];
      assert q >= 5 ==> NamePrefix(q, draws) == "admin";
    }
  }

  lemma AdminPartsDiffer(p: nat, q: nat, draws: seq<int>)
    requires ValidDraws(draws) && 5 <= p < 14 && p < q < SeedSize
    ensures NamePrefix(p, draws) != NamePrefix(q, draws) || NameSuffix(p) != NameSuffix(q)
  {
    if q < 14 {
      ParseNatToString(p - 3);
      ParseNatToString(q - 3);
    } else {
      LowerOfficerRoles();
      assert NamePrefix(q, draws) == ToLower(OfficerRoles[draws[q - 14]]);
    }
  }

  /** Every seeded username is different from every other. */
  lemma SeedNamesDistinct(draws: seq<int>, encode: string -> string, firstId: int)
    requires ValidDraws(draws)
    ensures DistinctUsernames(Seeded(draws, encode, firstId))
  {
    var s := Seeded(draws, encode, firstId);
    forall p, q | 0 <= p < q < |s| ensures s[p].username != s[q].username {
      NameSplits(p, draws, encode);
      NameSplits(q, draws, encode);
      PartsDiffer(p, q, draws);
      SplitUnique(NamePrefix(p, draws), NameSuffix(p), NamePrefix(q, draws), NameSuffix(q));
    }
  }

  // ---------------------------------------------------------------- the role counts

  lemma {:induction false} CountRoleAppend(a: seq<User>, b: seq<User>, r: string)
    ensures CountRole(a + b, r) == CountRole(a, r) + CountRole(b, r)
    decreases |a|
  {
    if |a| > 0 {
      assert (a + b)[1..] == a[1..] + b;
      CountRoleAppend(a[1..], b, r);
    } else {
      assert a + b == b;
    }
  }

  lemma {:induction false} CountRoleAll(s: seq<User>, r: string)
    requires forall k :: 0 <= k < |s| ==> s[k].role == r
    ensures CountRole(s, r) == |s|
    decreases |s|
  {
    if |s| > 0 {
      CountRoleAll(s[1..], r);
    }
  }

  lemma {:induction false} CountRoleNone(s: seq<User>, r: string)
    requires forall k :: 0 <= k < |s| ==> s[k].role != r
    ensures CountRole(s, r) == 0
    decreases |s|
  {
    if |s| > 0 {
      CountRoleNone(s[1..], r);
    }
  }

  /** Ten admins (the default one and admin2 … admin10) and 107 officers, whatever the draws. */
  lemma TenAdmins(draws: seq<int>, encode: string -> string, firstId: int)
    requires ValidDraws(draws)
    ensures CountRole(Seeded(draws, encode, firstId), "ADMIN") == 10
    ensures |Seeded(draws, encode, firstId)| - 10 == 107
  {
    var s := Seeded(draws, encode, firstId);
    assert s == s[..1] + s[1..5] + s[5..14] + s[14..];
    CountRoleAll(s[..1], "ADMIN");
    CountRoleNone(s[1..5], "ADMIN");
    CountRoleAll(s[5..14], "ADMIN");
    CountRoleNone(s[14..], "ADMIN");
    CountRoleAppend(s[..1], s[1..5], "ADMIN");
    CountRoleAppend(s[..1] + s[1..5], s[5..14], "ADMIN");
    CountRoleAppend(s[..1] + s[1..5] + s[5..14], s[14..], "ADMIN");
  }

  /** Every seeded role is ADMIN or one of the officer roles. */
  lemma SeededRoles(draws: seq<int>, encode: string -> string, firstId: int)
    requires ValidDraws(draws)
    ensures forall p :: 0 <= p < SeedSize ==>
              Seeded(draws, encode, firstId)[p].role == "ADMIN" || Seeded(draws, encode, firstId)[p].role in OfficerRoles
  {
  }

  // ---------------------------------------------------------------- the default credentials

  /** With the BCrypt encoder (its hashes carry "$2a$" and it matches what it encoded), every seeded
      user logs in with the password that was encoded for it, and gets its role. */
  lemma SeededUserLogsIn(draws: seq<int>, encode: string -> string, firstId: int,
                         bcryptMatches: (string, string) -> bool, p: nat, password: string)
    requires ValidDraws(draws) && p < SeedSize
    requires forall x :: StartsWith(encode(x), BCryptPrefix) && bcryptMatches(x, encode(x))
    requires Seeded(draws, encode, firstId)[p].password == encode(password)
    ensures var s := Seeded(draws, encode, firstId);
            Login(s, Credentials(s[p].username, password), bcryptMatches) == Reply(200, Granted(s[p].role))
  {
    var s := Seeded(draws, encode, firstId);
    SeedNamesDistinct(draws, encode, firstId);
    SuccessExactlyOnMatch(s, p, password, bcryptMatches);
  }

  /** Officer number `i` logs in with the lower-cased role followed by "123". */
  lemma OfficerLogsIn(draws: seq<int>, encode: string -> string, firstId: int,
                      bcryptMatches: (string, string) -> bool, i: nat)
    requires ValidDraws(draws) && 2 <= i <= 104
    requires forall x :: StartsWith(encode(x), BCryptPrefix) && bcryptMatches(x, encode(x))
    ensures var s := Seeded(draws, encode, firstId);
            var role := OfficerRoles[draws[i - 2]];
            Login(s, Credentials(ToLower(role) + Pad2(i), ToLower(role) + "123"), bcryptMatches) == Reply(200, Granted(role))
  {
    SeededOfficer(draws, encode, firstId, i);
    SeededUserLogsIn(draws, encode, firstId, bcryptMatches, i + 12, ToLower(OfficerRoles[draws[i - 2]]) + "123");
  }

  /** With the BCrypt encoder each of the five default accounts logs in with its default password and
      gets its role. */
  lemma DefaultCredentialsLogIn(draws: seq<int>, encode: string -> string, firstId: int,
                                bcryptMatches: (string, string) -> bool)
    requires ValidDraws(draws)
    requires forall p :: StartsWith(encode(p), BCryptPrefix) && bcryptMatches(p, encode(p))
    ensures var s := Seeded(draws, encode, firstId);
            Login(s, Credentials("admin", "admin123"), bcryptMatches) == Reply(200, Granted("ADMIN")) &&
            Login(s, Credentials("patrol01", "patrol123"), bcryptMatches) == Reply(200, Granted("PATROL")) &&
            Login(s, Credentials("desk01", "desk123"), bcryptMatches) == Reply(200, Granted("DESK")) &&
            Login(s, Credentials("field01", "field123"), bcryptMatches) == Reply(200, Granted("FIELD")) &&
            Login(s, Credentials("inv01", "inv123"), bcryptMatches) == Reply(200, Granted("INVESTIGATING"))
  {
    SeededStart(draws, encode, firstId);
    SeededUserLogsIn(draws, encode, firstId, bcryptMatches, 0, "admin123");
    SeededUserLogsIn(draws, encode, firstId, bcryptMatches, 1, "patrol123");
    SeededUserLogsIn(draws, encode, firstId, bcryptMatches, 2, "desk123");
    SeededUserLogsIn(draws, encode, firstId, bcryptMatches, 3, "field123");
    SeededUserLogsIn(draws, encode, firstId, bcryptMatches, 4, "inv123");
  }

  // ---------------------------------------------------------------- the runner

  /** The five defaults open the seeded table. */
  lemma SeededStart(draws: seq<int>, encode: string -> string, firstId: int)
    requires ValidDraws(draws)
    ensures var d := DefaultUsers(encode);
            Seeded(draws, encode, firstId)[..5] ==
              [d[0].(id := Some(firstId)), d[1].(id := Some(firstId + 1)), d[2].(id := Some(firstId + 2)),
               d[3].(id := Some(firstId + 3)), d[4].(id := Some(firstId + 4))]
  {
  }

  lemma SeededAdmin(draws: seq<int>, encode: string -> string, firstId: int, i: nat)
    requires ValidDraws(draws) && 2 <= i <= 10
    ensures Seeded(draws, encode, firstId)[i + 3] == AdditionalAdmin(i, encode).(id := Some(firstId + i + 3))
  {
  }

  lemma SeededOfficer(draws: seq<int>, encode: string -> string, firstId: int, i: nat)
    requires ValidDraws(draws) && 2 <= i <= 104
    ensures Seeded(draws, encode, firstId)[i + 12] ==
              Officer(i, OfficerRoles[draws[i - 2]], encode).(id := Some(firstId + i + 12))
  {
  }

  /** A prefix one longer is the prefix and the next element. */
  lemma PrefixStep(s: seq<User>, n: nat)
    requires n < |s|
    ensures s[..n + 1] == s[..n] + [s[n]]
  {
  }

  /** The seeder bean over the users repository. */
  class Seeder {
    const repository: UserRepository

    constructor (repository: UserRepository)
      ensures this.repository == repository
    {
      this.repository := repository;
    }

    /** `seedDatabase()`: an empty table receives the seeded rows under consecutive ids; a non-empty
        one is left alone. */
    method SeedDatabase(draws: seq<int>, encode: string -> string)
      requires ValidDraws(draws) && repository.Valid()
      modifies repository
      ensures repository.Valid()
      ensures old(|repository.users|) != 0 ==>
                repository.users == old(repository.users) && repository.nextId == old(repository.nextId)
      ensures old(|repository.users|) == 0 ==>
                repository.users == Seeded(draws, encode, old(repository.nextId)) &&
                repository.nextId == old(repository.nextId) + SeedSize
    {
      if repository.Count() != 0 {
        return;
      }
      SaveDefaults(draws, encode);
      SaveAdmins(draws, encode, repository.nextId - 5);
      SaveOfficers(draws, encode, repository.nextId - 14);
    }

    /** The five default accounts. */
    method SaveDefaults(draws: seq<int>, encode: string -> string)
      requires ValidDraws(draws) && repository.Valid() && repository.users == []
      modifies repository
      ensures repository.Valid()
      ensures repository.users == Seeded(draws, encode, old(repository.nextId))[..5]
      ensures repository.nextId == old(repository.nextId) + 5
    {
      SeededStart(draws, encode, repository.nextId);
      var saved;
      saved := repository.Save(User(None, "admin", encode("admin123"), "ADMIN", None));
      saved := repository.Save(User(None, "patrol01", encode("patrol123"), "PATROL", None));
      saved := repository.Save(User(None, "desk01", encode("desk123"), "DESK", None));
      saved := repository.Save(User(None, "field01", encode("field123"), "FIELD", None));
      saved := repository.Save(User(None, "inv01", encode("inv123"), "INVESTIGATING", None));
    }

    /** admin2 … admin10. */
    method SaveAdmins(draws: seq<int>, encode: string -> string, ghost first: int)
      requires ValidDraws(draws) && repository.Valid()
      requires repository.users == Seeded(draws, encode, first)[..5] && repository.nextId == first + 5
      modifies repository
      ensures repository.Valid()
      ensures repository.users == Seeded(draws, encode, first)[..14] && repository.nextId == first + 14
    {
      ghost var target := Seeded(draws, encode, first);
      for i := 2 to 11
        invariant repository.Valid()
        invariant repository.users == target[..i + 3] && repository.nextId == first + i + 3
      {
        var additionalAdmin := User(None, "admin" + NatToString(i), encode("admin123"), "ADMIN", None);
        var saved := repository.Save(additionalAdmin);
        SeededAdmin(draws, encode, first, i);
        PrefixStep(target, i + 3);
      }
    }

    /** One officer for every number from 2 to 104, with the drawn role. */
    method SaveOfficers(draws: seq<int>, encode: string -> string, ghost first: int)
      requires ValidDraws(draws) && repository.Valid()
      requires repository.users == Seeded(draws, encode, first)[..14] && repository.nextId == first + 14
      modifies repository
      ensures repository.Valid()
      ensures repository.users == Seeded(draws, encode, first) && repository.nextId == first + SeedSize
    {
      ghost var target := Seeded(draws, encode, first);
      var officerRoles := ["PATROL", "DESK", "FIELD", "INVESTIGATING"];
      for i := 2 to 105
        invariant repository.Valid()
        invariant repository.users == target[..i + 12] && repository.nextId == first + i + 12
      {
        var role := officerRoles[draws[i - 2]];
        var usernamePrefix := ToLower(role);
        var officer := User(None, usernamePrefix + Pad2(i), encode(ToLower(role) + "123"), role, None);
        var saved := repository.Save(officer);
        SeededOfficer(draws, encode, first, i);
        PrefixStep(target, i + 12);
      }
      assert target[..117] == target;
    }
  }
}
