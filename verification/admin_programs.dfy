/**
 * The administrator's program management page: admin-only, it shows the
 * number of programs, of active and of completed ones, and the funding
 * raised across all of them, then one card per program.
 */
module AdminPrograms {
  import opened Support
  import opened Rows

  datatype ProgramStats = ProgramStats(total: nat, active: nat, completed: nat, funding: int)

  /** `programs?.filter((p) => p.status === status).length || 0`. */
  function CountStatusOr0(programs: Option<seq<ProgramRow>>, status: string): nat {
    if programs.Some? then CountStatus(programs.value, status) else 0
  }

  /** `programs?.reduce(...) || 0`. */
  function FundingOr0Total(programs: Option<seq<ProgramRow>>): int {
    if programs.Some? then FundingSum(programs.value) else 0
  }

  /**
   * The header figures `totalPrograms`, `activePrograms`, `completedPrograms`
   * and `totalFunding`: active and completed programs are disjoint, so they
   * never outnumber the programs; no rows means every figure is 0.
   */
  function Stats(programs: Option<seq<ProgramRow>>): (s: ProgramStats)
    ensures s.total == LengthOr0(programs)
    ensures s.active + s.completed <= s.total
    ensures programs.Some? ==>
      && s.active == CountStatus(programs.value, "active")
      && s.completed == CountStatus(programs.value, "completed")
      && s.funding == FundingSum(programs.value)
    ensures programs.None? || programs.value == [] ==> s == ProgramStats(0, 0, 0, 0)
  {
    var s := ProgramStats(LengthOr0(programs), CountStatusOr0(programs, "active"),
                          CountStatusOr0(programs, "completed"), FundingOr0Total(programs));
    assert s.active + s.completed <= s.total by {
      if programs.Some? { CountTwoStatuses(programs.value, "active", "completed"); }
    }
    s
  }

  /** Adding a program to the list adds its funding (0 when unrecorded) to the total. */
  lemma StatsAfterNewProgram(programs: seq<ProgramRow>, p: ProgramRow)
    ensures Stats(Some(programs + [p])).funding == Stats(Some(programs)).funding + FundingOr0(p)
    ensures Stats(Some(programs + [p])).total == Stats(Some(programs)).total + 1
  {
    FundingSumAppend(programs, [p]);
    assert FundingSum([p]) == FundingSum([p][..0]) + FundingOr0(p);
  }

  /** The page: redirected to login unless the signed-in user's profile has role "admin". */
  function View(auth: AuthState, profile: Option<ProfileRow>, programs: Option<seq<ProgramRow>>)
    : (p: Page<ProgramStats>)
    ensures p.Render? <==> auth.SignedIn? && profile.Some? && profile.value.role == Some("admin")
    ensures p.Redirect? ==> p.target == LoginRoute
    ensures p.Render? ==> p.view == Stats(programs)
  {
    Guard(auth, profile, "admin", Stats(programs))
  }

  /** The card description: the first 100 characters of the description, then "...". */
  function CardDescription(description: Option<string>): (text: string)
    ensures 3 <= |text| <= 103 && text[|text| - 3..] == "..."
    ensures description.Some? ==> text[..|text| - 3] <= description.value
    ensures description.Some? && |description.value| <= 100 ==> text == description.value + "..."
    ensures description.Some? && |description.value| > 100 ==> text == description.value[..100] + "..."
    ensures description.None? ==> text == "..."
  {
    Teaser(description, 100)
  }

  /** `program.category || "General"`. */
  function CategoryLabel(category: Option<string>): (text: string)
    ensures text != ""
    ensures category.Some? && category.value != "" ==> text == category.value
    ensures category.None? || category.value == "" ==> text == "General"
  {
    OrDefault(category, "General")
  }

  /** The status badge is filled exactly for active programs. */
  function StatusBadgeFilled(status: string): (filled: bool)
    ensures filled <==> status == "active"
  {
    status == "active"
  }

  /** The number of cards in the grid whose status badge is filled, counted as the cards render. */
  function FilledBadges(programs: seq<ProgramRow>): nat {
    if programs == [] then 0
    else FilledBadges(programs[..|programs| - 1]) + (if StatusBadgeFilled(programs[|programs| - 1].status) then 1 else 0)
  }

  /** The grid shows as many filled badges as the header counts active programs. */
  lemma {:induction false} FilledBadgesAreActivePrograms(programs: seq<ProgramRow>)
    ensures FilledBadges(programs) == Stats(Some(programs)).active
    decreases |programs|
  {
    if programs != [] {
      FilledBadgesAreActivePrograms(programs[..|programs| - 1]);
      CountStatusLast(programs, "active");
    }
  }

  /** The funding block is shown when `program.funding_goal` is truthy: recorded and non-zero. */
  function FundingShown(p: ProgramRow): (shown: bool)
    ensures shown <==> p.fundingGoal.Some? && p.fundingGoal.value != 0
  {
    p.fundingGoal.Some? && p.fundingGoal.value != 0
  }

  /** A quotient `num / den`, kept exact. */
  datatype Fraction = Fraction(num: int, den: int)

  /**
   * The progress bar's share `(current_funding || 0) / funding_goal`, whose
   * percentage the bar shows. It exists exactly when the funding block is
   * shown, so the block never divides by a missing or zero goal.
   */
  function ProgressShare(p: ProgramRow): (r: Option<Fraction>)
    ensures r.Some? <==> FundingShown(p)
    ensures r.Some? ==> r.value.den != 0 && r.value.num == FundingOr0(p) && Some(r.value.den) == p.fundingGoal
  {
    if p.fundingGoal.Some? && p.fundingGoal.value != 0 then Some(Fraction(FundingOr0(p), p.fundingGoal.value)) else None
  }

  /** The whole percentage of a share with a positive denominator, rounded down. */
  function Percent(f: Fraction): (p: int)
    requires f.den > 0
    ensures f.den * p <= 100 * f.num < f.den * (p + 1)
  {
    (100 * f.num) / f.den
  }

  /** Multiplying by a non-negative factor keeps the order. */
  lemma MulMonotone(a: int, b: int, c: int)
    requires a <= b && c >= 0
    ensures a * c <= b * c
  {
    assert b * c - a * c == (b - a) * c;
  }

  /** The rounded-down percentage of `raised / goal` reaches 100 exactly when `raised` reaches `goal`. */
  lemma PercentOfGoal(raised: int, goal: int)
    requires goal > 0 && raised >= 0
    ensures Percent(Fraction(raised, goal)) >= 0
    ensures Percent(Fraction(raised, goal)) >= 100 <==> raised >= goal
    ensures raised <= goal ==> Percent(Fraction(raised, goal)) <= 100
  {
    var q := Percent(Fraction(raised, goal));
    var r := (100 * raised) % goal;
    assert 100 * raised == q * goal + r && 0 <= r < goal;
    if q < 0 {
      MulMonotone(q, -1, goal);
    }
    if raised >= goal && q < 100 {
      MulMonotone(q + 1, 100, goal);
      MulMonotone(goal, raised, 100);
    }
    if raised < goal && q >= 100 {
      MulMonotone(100, q, goal);
      MulMonotone(raised + 1, goal, 100);
    }
  }

  /**
   * With a positive goal and non-negative funding, the bar lies between 0 and
   * 100 percent while the goal is not reached, and reaches 100 percent exactly
   * when the funding reaches the goal.
   */
  lemma ProgressWithinGoal(p: ProgramRow)
    requires p.fundingGoal.Some? && p.fundingGoal.value > 0 && FundingOr0(p) >= 0
    ensures ProgressShare(p).Some?
    ensures Percent(ProgressShare(p).value) >= 0
    ensures Percent(ProgressShare(p).value) >= 100 <==> FundingOr0(p) >= p.fundingGoal.value
    ensures FundingOr0(p) <= p.fundingGoal.value ==> Percent(ProgressShare(p).value) <= 100
  {
    PercentOfGoal(FundingOr0(p), p.fundingGoal.value);
  }

  /** The grid shows the cards when there is at least one row, and the "No programs yet" panel otherwise. */
  function ShowsEmptyState(programs: Option<seq<ProgramRow>>): (empty: bool)
    ensures empty <==> LengthOr0(programs) == 0
  {
    !(programs.Some? && |programs.value| > 0)
  }
}
