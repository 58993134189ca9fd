/**
 * The administrator's user management page: admin-only, it lists every
 * profile with its volunteer and donor details and shows the number of
 * users and of volunteers, donors and administrators among them.
 */
module AdminUsers {
  import opened Support
  import opened Rows

  /** The joined `volunteers (hours_volunteered, ...)` row. */
  datatype VolunteerInfo = VolunteerInfo(hoursVolunteered: Option<int>)

  /** The joined `donors (total_donated, ...)` row. */
  datatype DonorInfo = DonorInfo(totalDonated: Option<int>)

  /** A `profiles` row with its joined rows; the join arrays may be null. */
  datatype UserRow = UserRow(
    role: Option<string>,
    volunteers: Option<seq<VolunteerInfo>>,
    donors: Option<seq<DonorInfo>>)

  datatype UserStats = UserStats(totalUsers: nat, volunteers: nat, donors: nat, admins: nat)

  /** `users.filter((u) => u.role === role).length`. */
  function CountRole(users: seq<UserRow>, role: string): (n: nat)
    ensures n <= |users|
    ensures n == 0 <==> forall i :: 0 <= i < |users| ==> users[i].role != Some(role)
  {
    if users == [] then 0
    else (if users[0].role == Some(role) then 1 else 0) + CountRole(users[1..], role)
  }

  /** `users?.filter(...).length || 0`. */
  function CountRoleOr0(users: Option<seq<UserRow>>, role: string): nat {
    if users.Some? then CountRole(users.value, role) else 0
  }

  predicate KnownRole(u: UserRow) {
    u.role in {Some("volunteer"), Some("donor"), Some("admin")}
  }

  /**
   * The three role counts never exceed the number of users, and they add
   * up to it exactly when every user has one of the three roles.
   */
  lemma {:induction false} RoleCountsPartition(users: seq<UserRow>)
    ensures CountRole(users, "volunteer") + CountRole(users, "donor") + CountRole(users, "admin") <= |users|
    ensures CountRole(users, "volunteer") + CountRole(users, "donor") + CountRole(users, "admin") == |users|
        <==> forall i :: 0 <= i < |users| ==> KnownRole(users[i])
  {
    if users != [] {
      RoleCountsPartition(users[1..]);
      if forall i :: 0 <= i < |users[1..]| ==> KnownRole(users[1..][i]) {
        if KnownRole(users[0]) {
          forall i | 0 <= i < |users| ensures KnownRole(users[i]) {
            if i > 0 { assert users[i] == users[1..][i - 1]; }
          }
        }
      } else {
        var j :| 0 <= j < |users[1..]| && !KnownRole(users[1..][j]);
        assert !KnownRole(users[j + 1]);
      }
    }
  }

  /** The header figures: `totalUsers`, `volunteers`, `donors`, `admins`. */
  function Stats(users: Option<seq<UserRow>>): (s: UserStats)
    ensures s.totalUsers == LengthOr0(users)
    ensures s.volunteers + s.donors + s.admins <= s.totalUsers
    ensures users.Some? ==>
      && s.volunteers == CountRole(users.value, "volunteer")
      && s.donors == CountRole(users.value, "donor")
      && s.admins == CountRole(users.value, "admin")
    ensures users.None? ==> s == UserStats(0, 0, 0, 0)
  {
    var s := UserStats(LengthOr0(users), CountRoleOr0(users, "volunteer"), CountRoleOr0(users, "donor"),
                       CountRoleOr0(users, "admin"));
    assert s.volunteers + s.donors + s.admins <= s.totalUsers by {
      if users.Some? { RoleCountsPartition(users.value); }
    }
    s
  }

  /** The page: redirected to login unless the signed-in user's profile has role "admin". */
  function View(auth: AuthState, profile: Option<ProfileRow>, users: Option<seq<UserRow>>): (p: Page<UserStats>)
    ensures p.Render? <==> auth.SignedIn? && profile.Some? && profile.value.role == Some("admin")
    ensures p.Redirect? ==> p.target == LoginRoute
    ensures p.Render? ==> p.view == Stats(users)
  {
    Guard(auth, profile, "admin", Stats(users))
  }

  /** The hours badge: only for a volunteer with a volunteer row, showing `hours_volunteered || 0`. */
  function HoursBadge(u: UserRow): (badge: Option<int>)
    ensures badge.Some? <==> u.role == Some("volunteer") && u.volunteers.Some? && |u.volunteers.value| > 0
    ensures badge.Some? && u.volunteers.value[0].hoursVolunteered.Some? ==>
      badge.value == u.volunteers.value[0].hoursVolunteered.value
    ensures badge.Some? && u.volunteers.value[0].hoursVolunteered.None? ==> badge.value == 0
  {
    if u.role == Some("volunteer") && u.volunteers.Some? && |u.volunteers.value| > 0 then
      var h := u.volunteers.value[0].hoursVolunteered;
      Some(if h.Some? then h.value else 0)
    else None
  }

  /** The donated badge: only for a donor with a donor row, showing `total_donated` (0 when null). */
  function DonatedBadge(u: UserRow): (badge: Option<int>)
    ensures badge.Some? <==> u.role == Some("donor") && u.donors.Some? && |u.donors.value| > 0
    ensures badge.Some? && u.donors.value[0].totalDonated.Some? ==> badge.value == u.donors.value[0].totalDonated.value
    ensures badge.Some? && u.donors.value[0].totalDonated.None? ==> badge.value == 0
  {
    if u.role == Some("donor") && u.donors.Some? && |u.donors.value| > 0 then
      var t := u.donors.value[0].totalDonated;
      Some(if t.Some? then t.value else 0)
    else None
  }

  /** A user never gets both badges. */
  lemma AtMostOneBadge(u: UserRow)
    ensures !(HoursBadge(u).Some? && DonatedBadge(u).Some?)
  {
  }

  datatype BadgeVariant = Default | Secondary | Outline

  /** The role badge: filled for admins, secondary for volunteers, outlined for every other role. */
  function RoleBadge(role: Option<string>): (v: BadgeVariant)
    ensures v == Default <==> role == Some("admin")
    ensures v == Secondary <==> role == Some("volunteer")
  {
    if role == Some("admin") then Default else if role == Some("volunteer") then Secondary else Outline
  }
}
