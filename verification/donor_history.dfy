/**
 * The donor's donation history page: donor-only, it shows the total given,
 * the number of donations, the amount given in 2024 (the "2024 Tax
 * Deductible" figure, found by the `created_at` text starting with "2024"),
 * and one line per donation with its program and masked payment method.
 */
module DonorHistory {
  import opened Support
  import opened Rows

  const TaxYearPrefix := "2024"

  /** The year filter: `d.created_at.startsWith(prefix)`. */
  predicate InYear(d: DonationRow, prefix: string) {
    StartsWith(d.createdAt, prefix)
  }

  /** The number of rows whose `created_at` starts with the prefix. */
  function CountYear(rows: seq<DonationRow>, prefix: string): (n: nat)
    ensures n <= |rows|
  {
    if rows == [] then 0
    else CountYear(rows[..|rows| - 1], prefix) + (if InYear(rows[|rows| - 1], prefix) then 1 else 0)
  }

  /** `rows.filter((d) => d.created_at.startsWith(prefix))`, keeping the order of the rows. */
  function FilterYear(rows: seq<DonationRow>, prefix: string): (r: seq<DonationRow>)
    ensures |r| == CountYear(rows, prefix)
    ensures forall i :: 0 <= i < |r| ==> InYear(r[i], prefix)
    ensures forall d :: d in r <==> d in rows && InYear(d, prefix)
  {
    if rows == [] then []
    else
      var last := rows[|rows| - 1];
      FilterYear(rows[..|rows| - 1], prefix) + (if InYear(last, prefix) then [last] else [])
  }

  /** The rows the year filter drops. */
  function FilterOtherYears(rows: seq<DonationRow>, prefix: string): (r: seq<DonationRow>)
    ensures |r| == |rows| - CountYear(rows, prefix)
    ensures forall i :: 0 <= i < |r| ==> !InYear(r[i], prefix)
    ensures forall d :: d in r <==> d in rows && !InYear(d, prefix)
  {
    if rows == [] then []
    else
      var last := rows[|rows| - 1];
      FilterOtherYears(rows[..|rows| - 1], prefix) + (if InYear(last, prefix) then [] else [last])
  }

  /** The year's sum and the rest's sum add up to the total: the filter loses no amount. */
  lemma {:induction false} YearSplit(rows: seq<DonationRow>, prefix: string)
    ensures AmountSum(FilterYear(rows, prefix)) + AmountSum(FilterOtherYears(rows, prefix)) == AmountSum(rows)
    decreases |rows|
  {
    if rows != [] {
      var init, last := rows[..|rows| - 1], rows[|rows| - 1];
      YearSplit(init, prefix);
      AmountSumAppend(FilterYear(init, prefix), if InYear(last, prefix) then [last] else []);
      AmountSumAppend(FilterOtherYears(init, prefix), if InYear(last, prefix) then [] else [last]);
      assert AmountSum([last]) == AmountSum([last][..0]) + last.amount;
    }
  }

  /** When every row is of the year the filter keeps them all. */
  lemma {:induction false} FilterYearAll(rows: seq<DonationRow>, prefix: string)
    requires forall i :: 0 <= i < |rows| ==> InYear(rows[i], prefix)
    ensures FilterYear(rows, prefix) == rows
    decreases |rows|
  {
    if rows != [] {
      var init := rows[..|rows| - 1];
      assert forall i :: 0 <= i < |init| ==> init[i] == rows[i];
      FilterYearAll(init, prefix);
      var last := rows[|rows| - 1];
      assert InYear(last, prefix);
      assert FilterYear(rows, prefix) == init + [last];
      InitPlusLast(rows);
    }
  }

  /** When no row is of the year none is counted. */
  lemma {:induction false} CountYearNone(rows: seq<DonationRow>, prefix: string)
    requires forall i :: 0 <= i < |rows| ==> !InYear(rows[i], prefix)
    ensures CountYear(rows, prefix) == 0
    decreases |rows|
  {
    if rows != [] {
      var init := rows[..|rows| - 1];
      assert forall i :: 0 <= i < |init| ==> init[i] == rows[i];
      CountYearNone(init, prefix);
    }
  }

  /** When every row is of the year the filter keeps them all, and when none is it keeps none. */
  lemma FilterYearExtremes(rows: seq<DonationRow>, prefix: string)
    ensures (forall i :: 0 <= i < |rows| ==> InYear(rows[i], prefix)) ==> FilterYear(rows, prefix) == rows
    ensures (forall i :: 0 <= i < |rows| ==> !InYear(rows[i], prefix)) ==> FilterYear(rows, prefix) == []
  {
    if forall i :: 0 <= i < |rows| ==> InYear(rows[i], prefix) {
      FilterYearAll(rows, prefix);
    }
    if forall i :: 0 <= i < |rows| ==> !InYear(rows[i], prefix) {
      CountYearNone(rows, prefix);
    }
  }

  /** `donations?.filter(...2024...).reduce((sum, d) => sum + d.amount, 0) || 0`. */
  function TaxDeductible(rows: Option<seq<DonationRow>>): (t: int)
    ensures rows.None? ==> t == 0
    ensures rows.Some? ==> t + AmountSum(FilterOtherYears(rows.value, TaxYearPrefix)) == AmountSum(rows.value)
  {
    if rows.Some? then
      YearSplit(rows.value, TaxYearPrefix);
      AmountSum(FilterYear(rows.value, TaxYearPrefix))
    else 0
  }

  /** The 2024 figure equals the total when every donation is from 2024, and is 0 when none is. */
  lemma TaxDeductibleExtremes(rows: seq<DonationRow>)
    ensures (forall i :: 0 <= i < |rows| ==> InYear(rows[i], TaxYearPrefix)) ==>
      TaxDeductible(Some(rows)) == TotalAmount(Some(rows))
    ensures (forall i :: 0 <= i < |rows| ==> !InYear(rows[i], TaxYearPrefix)) ==> TaxDeductible(Some(rows)) == 0
  {
    FilterYearExtremes(rows, TaxYearPrefix);
  }

  /** With non-negative amounts, the 2024 figure never exceeds the total donated. */
  lemma TaxDeductibleAtMostTotal(rows: seq<DonationRow>)
    requires forall i :: 0 <= i < |rows| ==> rows[i].amount >= 0
    ensures 0 <= TaxDeductible(Some(rows)) <= TotalAmount(Some(rows))
  {
    YearSplit(rows, TaxYearPrefix);
    var rest := FilterOtherYears(rows, TaxYearPrefix);
    var kept := FilterYear(rows, TaxYearPrefix);
    forall i | 0 <= i < |rest| ensures rest[i].amount >= 0 {
      assert rest[i] in rows;
    }
    forall i | 0 <= i < |kept| ensures kept[i].amount >= 0 {
      assert kept[i] in rows;
    }
    AmountSumNonNegative(rest);
    AmountSumNonNegative(kept);
  }

  /** The summary figures: total donated, number of donations, the 2024 figure. */
  datatype HistoryStats = HistoryStats(totalDonated: int, count: nat, taxDeductible: int)

  function Stats(rows: Option<seq<DonationRow>>): (s: HistoryStats)
    ensures s.totalDonated == TotalAmount(rows)
    ensures s.count == LengthOr0(rows)
    ensures s.taxDeductible == TaxDeductible(rows)
    ensures rows.None? ==> s == HistoryStats(0, 0, 0)
  {
    HistoryStats(TotalAmount(rows), LengthOr0(rows), TaxDeductible(rows))
  }

  /** The page: redirected to login unless the signed-in user's profile has role "donor". */
  function View(auth: AuthState, profile: Option<ProfileRow>, rows: Option<seq<DonationRow>>)
    : (p: Page<HistoryStats>)
    ensures p.Render? <==> auth.SignedIn? && profile.Some? && profile.value.role == Some("donor")
    ensures p.Redirect? ==> p.target == LoginRoute
    ensures p.Render? ==> p.view == Stats(rows)
  {
    Guard(auth, profile, "donor", Stats(rows))
  }

  const MaskDots := "•••• "

  /**
   * The masked payment method, shown only when `payment_method` is truthy:
   * the dots and then its last four characters, or all of it when shorter.
   */
  function MaskedPayment(paymentMethod: Option<string>): (shown: Option<string>)
    ensures shown.Some? <==> paymentMethod.Some? && paymentMethod.value != ""
    ensures shown.Some? ==> MaskDots <= shown.value
    ensures shown.Some? ==> var pm := paymentMethod.value;
      && |shown.value| == |MaskDots| + (if |pm| < 4 then |pm| else 4)
      && shown.value[|MaskDots|..] == pm[|pm| - (|shown.value| - |MaskDots|)..]
  {
    if paymentMethod.Some? && paymentMethod.value != "" then Some(MaskDots + SliceLast(paymentMethod.value, 4))
    else None
  }

  /** Card numbers that share their last four digits are shown identically. */
  lemma MaskedPaymentLastFour(a: string, b: string)
    requires |a| >= 4 && |b| >= 4 && a[|a| - 4..] == b[|b| - 4..]
    ensures MaskedPayment(Some(a)) == MaskedPayment(Some(b))
  {
  }

  /** `donation.programs?.title || "General Fund"`. */
  function ProgramLabel(program: Option<ProgramRef>): (text: string)
    ensures text != ""
    ensures program.Some? && program.value.title.Some? && program.value.title.value != "" ==>
      text == program.value.title.value
    ensures program.None? || program.value.title.None? || program.value.title.value == "" ==>
      text == "General Fund"
  {
    OrDefault(if program.Some? then program.value.title else None, "General Fund")
  }
}
