/**
 * The administrator's dashboard: admin-only, it shows the donations
 * received in total and this month, the active programs, the upcoming
 * events, the number of users, and the pending volunteer applications (at
 * most five are fetched). The current time is a parameter.
 */
module AdminDashboard {
  import opened Support
  import opened Rows

  /** An `events` row, by its date. */
  datatype EventRow = EventRow(date: Instant)

  /** A `volunteer_applications` row, by its status. */
  datatype ApplicationRow = ApplicationRow(status: string)

  /** `donations.filter((d) => new Date(d.created_at).getMonth() === month).length`; the year is not compared. */
  function MonthCount(rows: seq<DonationRow>, month: int): (n: nat)
    ensures n <= |rows|
    ensures n == 0 <==> forall i :: 0 <= i < |rows| ==> rows[i].created.month != month
  {
    if rows == [] then 0
    else (if rows[0].created.month == month then 1 else 0) + MonthCount(rows[1..], month)
  }

  /** Two donation lists that differ only in the years of their dates get the same monthly count. */
  lemma {:induction false} MonthCountIgnoresYear(a: seq<DonationRow>, b: seq<DonationRow>, month: int)
    requires |a| == |b|
    requires forall i :: 0 <= i < |a| ==> a[i].created.month == b[i].created.month
    ensures MonthCount(a, month) == MonthCount(b, month)
  {
    if a != [] {
      MonthCountIgnoresYear(a[1..], b[1..], month);
    }
  }

  /** A donation from the same month of an earlier year counts as a donation of this month. */
  lemma LastYearCountsThisMonth(d: DonationRow, month: int)
    requires d.created.month == month
    ensures MonthCount([d.(created := d.created.(year := d.created.year - 1))], month) == 1
  {
  }

  /** `events.filter((e) => new Date(e.date) > now).length`. */
  function UpcomingCount(events: seq<EventRow>, now: Instant): (n: nat)
    ensures n <= |events|
    ensures n == 0 <==> forall i :: 0 <= i < |events| ==> events[i].date <= now
  {
    if events == [] then 0
    else (if events[0].date > now then 1 else 0) + UpcomingCount(events[1..], now)
  }

  /** As time passes the number of upcoming events can only fall. */
  lemma {:induction false} UpcomingCountAntitone(events: seq<EventRow>, earlier: Instant, later: Instant)
    requires earlier <= later
    ensures UpcomingCount(events, later) <= UpcomingCount(events, earlier)
  {
    if events != [] {
      UpcomingCountAntitone(events[1..], earlier, later);
    }
  }

  /** The number of pending applications. */
  function CountPending(apps: seq<ApplicationRow>): (n: nat)
    ensures n <= |apps|
    ensures n == 0 <==> forall i :: 0 <= i < |apps| ==> apps[i].status != "pending"
  {
    if apps == [] then 0 else (if apps[0].status == "pending" then 1 else 0) + CountPending(apps[1..])
  }

  /** `.eq("status", "pending")` on the applications, in query order. */
  function PendingOnly(apps: seq<ApplicationRow>): (r: seq<ApplicationRow>)
    ensures |r| == CountPending(apps)
    ensures forall i :: 0 <= i < |r| ==> r[i].status == "pending"
    ensures forall a :: a in r <==> a in apps && a.status == "pending"
  {
    if apps == [] then []
    else (if apps[0].status == "pending" then [apps[0]] else []) + PendingOnly(apps[1..])
  }

  /** `.eq("status", "pending").limit(5)`: the first five pending applications, or all of them when fewer. */
  function PendingApplications(apps: seq<ApplicationRow>): (r: seq<ApplicationRow>)
    ensures r <= PendingOnly(apps)
    ensures |r| == if CountPending(apps) <= 5 then CountPending(apps) else 5
    ensures forall i :: 0 <= i < |r| ==> r[i].status == "pending"
  {
    var pending := PendingOnly(apps);
    var r := Prefix(pending, 5);
    assert forall i :: 0 <= i < |r| ==> r[i] == pending[i];
    r
  }

  /** With five or fewer pending applications, all of them are fetched, and the figure is their number. */
  lemma PendingApplicationsAllWhenFew(apps: seq<ApplicationRow>)
    requires CountPending(apps) <= 5
    ensures PendingApplications(apps) == PendingOnly(apps)
    ensures |PendingApplications(apps)| == CountPending(apps)
  {
  }

  /** The dashboard's figures. */
  datatype AdminStats = AdminStats(
    totalDonations: int,
    monthlyDonations: nat,
    activePrograms: nat,
    upcomingEvents: nat,
    totalUsers: nat,
    pendingApplications: nat)

  /**
   * The figures, from the fetched rows (each possibly `null`), the current
   * month (0-11) and the current time: every `?.length || 0` and
   * `?.reduce(...) || 0` is 0 for missing rows.
   */
  function Stats(
    volunteers: Option<seq<string>>, donors: Option<seq<string>>, donations: Option<seq<DonationRow>>,
    events: Option<seq<EventRow>>, programs: Option<seq<ProgramRow>>, applications: Option<seq<ApplicationRow>>,
    currentMonth: int, now: Instant): (s: AdminStats)
    ensures s.totalDonations == TotalAmount(donations)
    ensures s.monthlyDonations <= LengthOr0(donations)
    ensures donations.Some? ==> s.monthlyDonations == MonthCount(donations.value, currentMonth)
    ensures s.activePrograms <= LengthOr0(programs)
    ensures programs.Some? ==> s.activePrograms == CountStatus(programs.value, "active")
    ensures s.upcomingEvents <= LengthOr0(events)
    ensures events.Some? ==> s.upcomingEvents == UpcomingCount(events.value, now)
    ensures s.totalUsers == LengthOr0(volunteers) + LengthOr0(donors)
    ensures s.pendingApplications <= 5
    ensures applications.Some? ==> s.pendingApplications == |PendingApplications(applications.value)|
    ensures applications.Some? ==>
      s.pendingApplications == if CountPending(applications.value) <= 5 then CountPending(applications.value) else 5
    ensures applications.None? ==> s.pendingApplications == 0
  {
    AdminStats(
      TotalAmount(donations),
      if donations.Some? then MonthCount(donations.value, currentMonth) else 0,
      if programs.Some? then CountStatus(programs.value, "active") else 0,
      if events.Some? then UpcomingCount(events.value, now) else 0,
      LengthOr0(volunteers) + LengthOr0(donors),
      if applications.Some? then |PendingApplications(applications.value)| else 0)
  }

  /** The page: redirected to login unless the signed-in user's profile has role "admin". */
  function View(
    auth: AuthState, profile: Option<ProfileRow>,
    volunteers: Option<seq<string>>, donors: Option<seq<string>>, donations: Option<seq<DonationRow>>,
    events: Option<seq<EventRow>>, programs: Option<seq<ProgramRow>>, applications: Option<seq<ApplicationRow>>,
    currentMonth: int, now: Instant): (p: Page<AdminStats>)
    ensures p.Render? <==> auth.SignedIn? && profile.Some? && profile.value.role == Some("admin")
    ensures p.Redirect? ==> p.target == LoginRoute
    ensures p.Render? ==> p.view == Stats(volunteers, donors, donations, events, programs, applications, currentMonth, now)
  {
    Guard(auth, profile, "admin", Stats(volunteers, donors, donations, events, programs, applications, currentMonth, now))
  }

  /** The avatar letter: `profile?.full_name?.charAt(0) || "A"`. */
  function AvatarLetter(fullName: Option<string>): (r: string)
    ensures |r| == 1
    ensures fullName.Some? && fullName.value != "" ==> r == fullName.value[..1]
    ensures fullName.None? || fullName.value == "" ==> r == "A"
  {
    Initial(fullName, 'A')
  }
}
