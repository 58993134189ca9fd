/**
 * Rows of the hosted tables as the dashboard pages receive them, and the
 * reductions several pages compute over them: `reduce` sums of amounts and
 * funding, and `filter(...).length` counts by status. Money is in integer
 * units (cents); a fetch that returns no data (`data: null`) is `None`,
 * and every `?.length || 0` / `?.reduce(...) || 0` maps it to 0.
 */
module Rows {
  import opened Support

  /** The local-calendar reading of a timestamp, as `new Date(text).getFullYear()` / `getMonth()` give it (month 0-11). */
  datatype CalendarDate = CalendarDate(year: int, month: int)

  /** The joined `programs (title)` object of a donation; it and its title may be null. */
  datatype ProgramRef = ProgramRef(title: Option<string>)

  /**
   * A `donations` row: `createdAt` is the `created_at` text, `created` its
   * local-calendar reading (parsing timestamps is not modelled).
   */
  datatype DonationRow = DonationRow(
    amount: int,
    createdAt: string,
    created: CalendarDate,
    paymentMethod: Option<string>,
    program: Option<ProgramRef>)

  /** A `programs` row; nullable columns are options. */
  datatype ProgramRow = ProgramRow(
    title: string,
    description: Option<string>,
    status: string,
    currentFunding: Option<int>,
    fundingGoal: Option<int>,
    category: Option<string>)

  /** `rows?.length || 0`. */
  function LengthOr0<T>(rows: Option<seq<T>>): (n: nat)
    ensures rows.None? ==> n == 0
    ensures rows.Some? ==> n == |rows.value|
  {
    if rows.Some? then |rows.value| else 0
  }

  /** `rows.reduce((sum, d) => sum + d.amount, 0)`, folded left to right. */
  function AmountSum(rows: seq<DonationRow>): int
  {
    if rows == [] then 0 else AmountSum(rows[..|rows| - 1]) + rows[|rows| - 1].amount
  }

  /** `rows?.reduce((sum, d) => sum + d.amount, 0) || 0`. */
  function TotalAmount(rows: Option<seq<DonationRow>>): (t: int)
    ensures rows.None? ==> t == 0
    ensures rows.Some? ==> t == AmountSum(rows.value)
  {
    if rows.Some? then AmountSum(rows.value) else 0
  }

  /** The sum of a concatenation is the sum of the parts. */
  lemma {:induction false} AmountSumAppend(a: seq<DonationRow>, b: seq<DonationRow>)
    ensures AmountSum(a + b) == AmountSum(a) + AmountSum(b)
    decreases |b|
  {
    if b == [] {
      assert a + b == a;
    } else {
      var c := b[..|b| - 1];
      assert (a + b)[..|a + b| - 1] == a + c;
      AmountSumAppend(a, c);
    }
  }

  /** The sum of donations whose amounts are all non-negative is non-negative. */
  lemma {:induction false} AmountSumNonNegative(rows: seq<DonationRow>)
    requires forall i :: 0 <= i < |rows| ==> rows[i].amount >= 0
    ensures AmountSum(rows) >= 0
    decreases |rows|
  {
    if rows != [] {
      AmountSumNonNegative(rows[..|rows| - 1]);
    }
  }

  /** `programs.filter((p) => p.status === status).length`. */
  function CountStatus(programs: seq<ProgramRow>, status: string): (n: nat)
    ensures n <= |programs|
    ensures n == 0 <==> forall i :: 0 <= i < |programs| ==> programs[i].status != status
    ensures n == |programs| <==> forall i :: 0 <= i < |programs| ==> programs[i].status == status
  {
    if programs == [] then 0
    else (if programs[0].status == status then 1 else 0) + CountStatus(programs[1..], status)
  }

  /** Counting from the front agrees with counting the last row after the others. */
  lemma {:induction false} CountStatusLast(programs: seq<ProgramRow>, status: string)
    requires programs != []
    ensures CountStatus(programs, status) ==
      CountStatus(programs[..|programs| - 1], status) + (if programs[|programs| - 1].status == status then 1 else 0)
    decreases |programs|
  {
    if |programs| > 1 {
      CountStatusLast(programs[1..], status);
      assert programs[1..][..|programs| - 2] == programs[..|programs| - 1][1..];
    }
  }

  /** Rows with two different statuses are disjoint, so their counts never exceed the row count. */
  lemma {:induction false} CountTwoStatuses(programs: seq<ProgramRow>, s1: string, s2: string)
    requires s1 != s2
    ensures CountStatus(programs, s1) + CountStatus(programs, s2) <= |programs|
  {
    if programs != [] {
      CountTwoStatuses(programs[1..], s1, s2);
    }
  }

  /** `p.current_funding || 0`. */
  function FundingOr0(p: ProgramRow): int {
    if p.currentFunding.Some? then p.currentFunding.value else 0
  }

  /** `programs.reduce((sum, p) => sum + (p.current_funding || 0), 0)`, folded left to right. */
  function FundingSum(programs: seq<ProgramRow>): int
  {
    if programs == [] then 0 else FundingSum(programs[..|programs| - 1]) + FundingOr0(programs[|programs| - 1])
  }

  /** The funding total of a concatenation is the total of the parts. */
  lemma {:induction false} FundingSumAppend(a: seq<ProgramRow>, b: seq<ProgramRow>)
    ensures FundingSum(a + b) == FundingSum(a) + FundingSum(b)
    decreases |b|
  {
    if b == [] {
      assert a + b == a;
    } else {
      var c := b[..|b| - 1];
      assert (a + b)[..|a + b| - 1] == a + c;
      FundingSumAppend(a, c);
    }
  }

  /** Programs without recorded funding add nothing to the total. */
  lemma {:induction false} FundingSumUnfunded(programs: seq<ProgramRow>)
    requires forall i :: 0 <= i < |programs| ==> programs[i].currentFunding.None?
    ensures FundingSum(programs) == 0
    decreases |programs|
  {
    if programs != [] {
      FundingSumUnfunded(programs[..|programs| - 1]);
    }
  }

  /** With non-negative funding figures, the total is at least the funding of any one program. */
  lemma {:induction false} FundingSumCoversEach(programs: seq<ProgramRow>, k: nat)
    requires k < |programs|
    requires forall i :: 0 <= i < |programs| ==> FundingOr0(programs[i]) >= 0
    ensures FundingSum(programs) >= FundingOr0(programs[k])
    decreases |programs|
  {
    var init := programs[..|programs| - 1];
    FundingSumNonNegative(init);
    if k < |programs| - 1 {
      FundingSumCoversEach(init, k);
    }
  }

  /** With non-negative funding figures, the total is non-negative. */
  lemma {:induction false} FundingSumNonNegative(programs: seq<ProgramRow>)
    requires forall i :: 0 <= i < |programs| ==> FundingOr0(programs[i]) >= 0
    ensures FundingSum(programs) >= 0
    decreases |programs|
  {
    if programs != [] {
      FundingSumNonNegative(programs[..|programs| - 1]);
    }
  }

  /** `.eq("status", status)` on programs, keeping the query order. */
  function FilterStatus(programs: seq<ProgramRow>, status: string): (r: seq<ProgramRow>)
    ensures |r| == CountStatus(programs, status)
    ensures forall i :: 0 <= i < |r| ==> r[i].status == status
    ensures forall p :: p in r <==> p in programs && p.status == status
  {
    if programs == [] then []
    else (if programs[0].status == status then [programs[0]] else []) + FilterStatus(programs[1..], status)
  }

  /**
   * `{description?.substring(0, n)}...`: at most `n` characters of the
   * description followed by the literal "..."; a missing description renders
   * nothing before the dots.
   */
  function Teaser(description: Option<string>, n: nat): (text: string)
    ensures 3 <= |text| <= n + 3
    ensures text[|text| - 3..] == "..."
    ensures description.Some? ==> text[..|text| - 3] <= description.value
    ensures description.Some? && |description.value| <= n ==> text == description.value + "..."
    ensures description.Some? && |description.value| > n ==> text == description.value[..n] + "..."
    ensures description.None? ==> text == "..."
  {
    (if description.Some? then Prefix(description.value, n) else "") + "..."
  }
}
