/**
 * The donor's dashboard: donor-only, it shows the donor's five most recent
 * donations, the total of those five (also shown as the "2024 Tax
 * Deductible" amount), their number, and up to three active programs as
 * featured causes.
 *
 * The donations are given newest first, as the query orders them; the page
 * sees only the window the query's `limit(5)` returns.
 */
module DonorDashboard {
  import opened Support
  import opened Rows
  import DonorHistory

  const WindowSize: nat := 5
  const FeaturedCount: nat := 3

  /** The donations the page receives: the first five of the donor's donations, newest first. */
  function Window(donations: seq<DonationRow>): (w: seq<DonationRow>)
    ensures w <= donations
    ensures |w| <= WindowSize
    ensures |donations| <= WindowSize ==> w == donations
    ensures |donations| > WindowSize ==> w == donations[..WindowSize]
  {
    Prefix(donations, WindowSize)
  }

  /** The featured programs: the active ones, at most three, in query order. */
  function Featured(programs: seq<ProgramRow>): (f: seq<ProgramRow>)
    ensures |f| <= FeaturedCount
    ensures f <= FilterStatus(programs, "active")
    ensures forall i :: 0 <= i < |f| ==> f[i].status == "active" && f[i] in programs
    ensures CountStatus(programs, "active") >= FeaturedCount ==> |f| == FeaturedCount
    ensures CountStatus(programs, "active") < FeaturedCount ==> |f| == CountStatus(programs, "active")
  {
    var active := FilterStatus(programs, "active");
    var f := Prefix(active, FeaturedCount);
    assert forall i :: 0 <= i < |f| ==> f[i] == active[i];
    f
  }

  /** The dashboard's figures: `totalDonated` (shown twice), "Donations Made", and the featured programs. */
  datatype DonorStats = DonorStats(totalDonated: int, donationsMade: nat, taxDeductible: int, featured: seq<ProgramRow>)

  /**
   * The figures from the donor's donations and the programs (each possibly
   * `null`). The total and the count cover the window only, and the tax
   * figure is that same total.
   */
  function Stats(donations: Option<seq<DonationRow>>, programs: Option<seq<ProgramRow>>): (s: DonorStats)
    ensures s.donationsMade <= WindowSize
    ensures s.taxDeductible == s.totalDonated
    ensures donations.Some? ==>
      && s.totalDonated == AmountSum(Window(donations.value))
      && s.donationsMade == |Window(donations.value)|
    ensures donations.None? ==> s.totalDonated == 0 && s.donationsMade == 0
    ensures |s.featured| <= FeaturedCount
    ensures forall i :: 0 <= i < |s.featured| ==> s.featured[i].status == "active"
    ensures programs.Some? ==> s.featured == Featured(programs.value)
    ensures programs.None? ==> s.featured == []
  {
    var window := if donations.Some? then Some(Window(donations.value)) else None;
    var total := TotalAmount(window);
    DonorStats(total, LengthOr0(window), total, if programs.Some? then Featured(programs.value) else [])
  }

  /** The page: redirected to login unless the signed-in user's profile has role "donor". */
  function View(auth: AuthState, profile: Option<ProfileRow>,
                donations: Option<seq<DonationRow>>, programs: Option<seq<ProgramRow>>): (p: Page<DonorStats>)
    ensures p.Render? <==> auth.SignedIn? && profile.Some? && profile.value.role == Some("donor")
    ensures p.Redirect? ==> p.target == LoginRoute
    ensures p.Render? ==> p.view == Stats(donations, programs)
  {
    Guard(auth, profile, "donor", Stats(donations, programs))
  }

  /** The donor's whole total is the window's total plus that of the older donations the page does not see. */
  lemma WindowSplit(donations: seq<DonationRow>)
    ensures AmountSum(donations) == AmountSum(Window(donations)) + AmountSum(donations[|Window(donations)|..])
  {
    var w := Window(donations);
    assert donations == w + donations[|w|..];
    AmountSumAppend(w, donations[|w|..]);
  }

  /**
   * Against the history page, which sums every donation: with at most five
   * donations the two totals agree; with more, and non-negative amounts, the
   * dashboard's total is never the larger.
   */
  lemma DashboardTotalAgainstHistory(donations: seq<DonationRow>)
    requires forall i :: 0 <= i < |donations| ==> donations[i].amount >= 0
    ensures Stats(Some(donations), None).totalDonated <= DonorHistory.Stats(Some(donations)).totalDonated
    ensures |donations| <= WindowSize ==>
      Stats(Some(donations), None).totalDonated == DonorHistory.Stats(Some(donations)).totalDonated
  {
    WindowSplit(donations);
    var rest := donations[|Window(donations)|..];
    assert forall i :: 0 <= i < |rest| ==> rest[i] == donations[|Window(donations)| + i];
    AmountSumNonNegative(rest);
  }

  /** A program blurb: the first 80 characters of the description, then "...". */
  function Blurb(description: Option<string>): (text: string)
    ensures 3 <= |text| <= 83 && text[|text| - 3..] == "..."
    ensures description.Some? ==> text[..|text| - 3] <= description.value
    ensures description.Some? && |description.value| <= 80 ==> text == description.value + "..."
    ensures description.Some? && |description.value| > 80 ==> text == description.value[..80] + "..."
    ensures description.None? ==> text == "..."
  {
    Teaser(description, 80)
  }

  /** A blurb is never longer than the card description of the program page, and both begin alike. */
  lemma BlurbPrefixOfCard(description: string)
    ensures var b, c := Teaser(Some(description), 80), Teaser(Some(description), 100);
      b[..|b| - 3] <= c[..|c| - 3]
  {
  }

  /** The welcome line's name: `profile?.full_name || "Donor"`. */
  function GreetingName(fullName: Option<string>): (name: string)
    ensures name != ""
    ensures fullName.Some? && fullName.value != "" ==> name == fullName.value
    ensures fullName.None? || fullName.value == "" ==> name == "Donor"
  {
    OrDefault(fullName, "Donor")
  }

  /** The avatar letter: `profile?.full_name?.charAt(0) || "D"`. */
  function AvatarLetter(fullName: Option<string>): (r: string)
    ensures |r| == 1
    ensures fullName.Some? && fullName.value != "" ==> r == fullName.value[..1]
    ensures fullName.None? || fullName.value == "" ==> r == "D"
  {
    Initial(fullName, 'D')
  }

  /** A donation line's destination: `donation.program_id ? "Program Support" : "General Fund"`. */
  function DestinationLabel(programId: Option<string>): (text: string)
    ensures text == "Program Support" <==> programId.Some? && programId.value != ""
    ensures text == "General Fund" <==> programId.None? || programId.value == ""
  {
    if programId.Some? && programId.value != "" then "Program Support" else "General Fund"
  }
}
