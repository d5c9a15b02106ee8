/**
 * The administrator dashboard: the per-role user counts read from the backend's `roleWiseCount` map
 * (a missing role counting 0), the total with its fallback to the sum of the counts, and the colour of the
 * database-health figure.
 */
module AdminDashboard {
  import opened Wrappers

  /** The five counts the dashboard shows. */
  datatype RoleCounts = RoleCounts(patrolOfficers: int, deskOfficers: int, fieldOfficers: int,
                                   investigatingOfficers: int, administrators: int)

  /** The body of `/api/users/total`: `roleWiseCount` may be absent, and `totalUsers` is Some only when it
      is a number. */
  datatype UsersReply = UsersReply(roleWiseCount: Option<map<string, int>>, totalUsers: Option<int>)

  /** `data.roleWiseCount?.[role] ?? 0`. */
  function CountOf(roleWiseCount: Option<map<string, int>>, role: string): (n: int)
    ensures roleWiseCount.Some? && role in roleWiseCount.value ==> n == roleWiseCount.value[role]
    ensures roleWiseCount.None? || role !in roleWiseCount.value ==> n == 0
  {
    if roleWiseCount.Some? && role in roleWiseCount.value then roleWiseCount.value[role] else 0
  }

  /** The backend's role names mapped onto the dashboard's five counts. */
  function CountsOf(roleWiseCount: Option<map<string, int>>): (c: RoleCounts)
    ensures c.patrolOfficers == CountOf(roleWiseCount, "PATROL")
    ensures c.deskOfficers == CountOf(roleWiseCount, "DESK")
    ensures c.fieldOfficers == CountOf(roleWiseCount, "FIELD")
    ensures c.investigatingOfficers == CountOf(roleWiseCount, "INVESTIGATING")
    ensures c.administrators == CountOf(roleWiseCount, "ADMIN")
    ensures roleWiseCount.None? ==> c == RoleCounts(0, 0, 0, 0, 0)
  {
    RoleCounts(CountOf(roleWiseCount, "PATROL"), CountOf(roleWiseCount, "DESK"), CountOf(roleWiseCount, "FIELD"),
               CountOf(roleWiseCount, "INVESTIGATING"), CountOf(roleWiseCount, "ADMIN"))
  }

  function Sum(c: RoleCounts): int {
    c.patrolOfficers + c.deskOfficers + c.fieldOfficers + c.investigatingOfficers + c.administrators
  }

  /** The total shown: the backend's number when it sent one, else the sum of the five counts. */
  function TotalOf(reply: UsersReply): (t: int)
    ensures reply.totalUsers.Some? ==> t == reply.totalUsers.value
    ensures reply.totalUsers.None? ==> t == Sum(CountsOf(reply.roleWiseCount))
  {
    if reply.totalUsers.Some? then reply.totalUsers.value else Sum(CountsOf(reply.roleWiseCount))
  }

  /** A role the dashboard does not list (such as a verbatim "Patrol Officer") is not counted by the
      fallback, so the fallback total can fall short of the backend's. */
  lemma FallbackIgnoresOtherRoles(m: map<string, int>, role: string, n: int)
    requires role !in {"PATROL", "DESK", "FIELD", "INVESTIGATING", "ADMIN"}
    ensures TotalOf(UsersReply(Some(m[role := n]), None)) == TotalOf(UsersReply(Some(m - {role}), None))
  {
    OtherRoleUnaffected(m, role, n, "PATROL");
    OtherRoleUnaffected(m, role, n, "DESK");
    OtherRoleUnaffected(m, role, n, "FIELD");
    OtherRoleUnaffected(m, role, n, "INVESTIGATING");
    OtherRoleUnaffected(m, role, n, "ADMIN");
  }

  /** Setting or removing one role does not change the count of another. */
  lemma OtherRoleUnaffected(m: map<string, int>, role: string, n: int, other: string)
    requires other != role
    ensures CountOf(Some(m[role := n]), other) == CountOf(Some(m - {role}), other)
  {
  }

  datatype HealthColor = Green | Yellow | Destructive

  /** Green above 75, yellow above 50, destructive otherwise. */
  function HealthColorOf(health: int): (c: HealthColor)
    ensures c == Green <==> health > 75
    ensures c == Yellow <==> 50 < health <= 75
    ensures c == Destructive <==> health <= 50
  {
    if health > 75 then Green else if health > 50 then Yellow else Destructive
  }

  /** The colour never improves as the health figure falls. */
  lemma HealthColorMonotone(a: int, b: int)
    requires a <= b
    ensures HealthColorOf(b) == Destructive ==> HealthColorOf(a) == Destructive
    ensures HealthColorOf(a) == Green ==> HealthColorOf(b) == Green
  {
  }

  class AdminDashboardState {
    var totalUsers: int
    var databaseHealth: int
    var roleCounts: RoleCounts

    constructor ()
      ensures totalUsers == 0 && databaseHealth == 0 && roleCounts == RoleCounts(0, 0, 0, 0, 0)
    {
      totalUsers, databaseHealth, roleCounts := 0, 0, RoleCounts(0, 0, 0, 0, 0);
    }

    /** One `fetchData` run: both requests together; if either fails nothing changes. */
    method FetchData(users: Fetch<UsersReply>, healthPercentage: Fetch<int>)
      modifies this
      ensures users.Got? && healthPercentage.Got? ==>
                roleCounts == CountsOf(users.value.roleWiseCount) && databaseHealth == healthPercentage.value
                && totalUsers == TotalOf(users.value)
      ensures users.Threw? || healthPercentage.Threw? ==>
                roleCounts == old(roleCounts) && databaseHealth == old(databaseHealth) && totalUsers == old(totalUsers)
    {
      if users.Threw? || healthPercentage.Threw? {
        return;
      }
      var data := users.value;
      var counts := CountsOf(data.roleWiseCount);
      roleCounts := counts;
      databaseHealth := healthPercentage.value;
      if data.totalUsers.Some? {
        totalUsers := data.totalUsers.value;
      } else {
        totalUsers := counts.patrolOfficers + counts.deskOfficers + counts.fieldOfficers
                      + counts.investigatingOfficers + counts.administrators;
      }
    }

    /** `fetchDatabaseHealth`: the figure, or 0 when the request fails. */
    method FetchDatabaseHealth(healthPercentage: Fetch<int>)
      modifies this`databaseHealth
      ensures databaseHealth == (if healthPercentage.Got? then healthPercentage.value else 0)
    {
      if healthPercentage.Got? {
        databaseHealth := healthPercentage.value;
      } else {
        databaseHealth := 0;
      }
    }
  }
}
