/**
 * The donor's donation form: a preset amount and a typed custom amount that
 * exclude each other, the amount the summary shows, when the submit button
 * and the impact panel are available, the impact figures (people given clean
 * water, school meals, trees) derived from the amount by integer division,
 * the program picked from a fixed list, and the frequency texts.
 */
module Donate {
  import opened Support

  const PresetAmounts: seq<nat> := [25, 50, 100, 250, 500, 1000]

  // ---------------------------------------------------------------------
  // Number text: `preset.toString()` and `Number.parseInt(text)`.

  predicate IsDigit(c: char) {
    '0' <= c <= '9'
  }

  predicate AllDigits(s: string) {
    forall i :: 0 <= i < |s| ==> IsDigit(s[i])
  }

  function DigitValue(c: char): nat
    requires IsDigit(c)
  {
    (c as int) - ('0' as int)
  }

  function DigitChar(d: nat): (c: char)
    requires d < 10
    ensures IsDigit(c) && DigitValue(c) == d
  {
    (('0' as int) + d) as char
  }

  /** `n.toString()`: decimal digits, most significant first, no leading zero. */
  function NatToString(n: nat): (s: string)
    ensures |s| >= 1 && AllDigits(s)
    ensures |s| > 1 ==> s[0] != '0'
  {
    if n < 10 then [DigitChar(n)] else NatToString(n / 10) + [DigitChar(n % 10)]
  }

  /**
   * The characters `parseInt` skips before the number: the white space and
   * line terminators of ECMAScript (tab, vertical tab, form feed, space,
   * no-break space, byte order mark, the other space separators, line feed,
   * carriage return, line and paragraph separators).
   */
  function IsStrWhiteSpace(c: char): (b: bool)
    ensures b ==> !IsRadixDigit(c, true) && c != '-' && c != '+'
    ensures c == ' ' || c == '\t' || c == '\n' || c == '\r' || c == '\U{00A0}' || c == '\U{FEFF}' ==> b
  {
    c == '\t' || c == '\n' || c == '\U{000B}' || c == '\U{000C}' || c == '\r' || c == ' '
    || c == '\U{00A0}' || c == '\U{1680}' || ('\U{2000}' <= c <= '\U{200A}')
    || c == '\U{2028}' || c == '\U{2029}' || c == '\U{202F}' || c == '\U{205F}'
    || c == '\U{3000}' || c == '\U{FEFF}'
  }

  /** The text after its leading white space. */
  function TrimStart(s: string): (r: string)
    ensures |r| <= |s| && r == s[|s| - |r|..]
    ensures r != [] ==> !IsStrWhiteSpace(r[0])
  {
    if s != [] && IsStrWhiteSpace(s[0]) then TrimStart(s[1..]) else s
  }

  /** Everything `TrimStart` drops is white space. */
  lemma {:induction false} TrimStartDropsWhiteSpace(s: string)
    ensures forall i :: 0 <= i < |s| - |TrimStart(s)| ==> IsStrWhiteSpace(s[i])
  {
    if s != [] && IsStrWhiteSpace(s[0]) {
      TrimStartDropsWhiteSpace(s[1..]);
      assert forall i :: 1 <= i < |s| - |TrimStart(s)| ==> s[i] == s[1..][i - 1];
    }
  }

  /** A digit of radix 16 when `hex`, of radix 10 otherwise. */
  predicate IsRadixDigit(c: char, hex: bool) {
    IsDigit(c) || (hex && ('a' <= c <= 'f' || 'A' <= c <= 'F'))
  }

  function RadixDigitValue(c: char, hex: bool): (v: nat)
    requires IsRadixDigit(c, hex)
    ensures v < (if hex then 16 else 10)
  {
    if IsDigit(c) then DigitValue(c)
    else if 'a' <= c <= 'f' then (c as int) - ('a' as int) + 10
    else (c as int) - ('A' as int) + 10
  }

  /** The longest run of radix digits at the start of `s`. */
  function LeadingDigits(s: string, hex: bool): (d: string)
    ensures d <= s
    ensures forall i :: 0 <= i < |d| ==> IsRadixDigit(d[i], hex)
    ensures |d| < |s| ==> !IsRadixDigit(s[|d|], hex)
  {
    if s == [] || !IsRadixDigit(s[0], hex) then [] else [s[0]] + LeadingDigits(s[1..], hex)
  }

  /** The value of a run of radix digits, most significant digit first. */
  function DigitsValue(d: string, hex: bool): nat
    requires forall i :: 0 <= i < |d| ==> IsRadixDigit(d[i], hex)
  {
    if d == [] then 0
    else (if hex then 16 else 10) * DigitsValue(d[..|d| - 1], hex) + RadixDigitValue(d[|d| - 1], hex)
  }

  /** `0x` or `0X` at the start: the radix-16 prefix `parseInt` accepts when no radix is given. */
  predicate HasHexPrefix(u: string) {
    |u| >= 2 && u[0] == '0' && (u[1] == 'x' || u[1] == 'X')
  }

  /** The magnitude `parseInt` reads from text without white space or sign; `None` is NaN. */
  function ParseUnsigned(u: string): (r: Option<nat>)
    ensures u != [] && IsDigit(u[0]) && !HasHexPrefix(u) ==> r.Some?
    ensures u != [] && !IsDigit(u[0]) ==> r.None?
  {
    var hex := HasHexPrefix(u);
    var d := LeadingDigits(if hex then u[2..] else u, hex);
    if d == [] then None else Some(DigitsValue(d, hex))
  }

  /** The sign and magnitude `parseInt` reads from text that starts after the white space. */
  function ParseSigned(t: string): (r: Option<int>)
    ensures t == [] ==> r.None?
    ensures t != [] && t[0] != '-' && t[0] != '+' ==> r == (if ParseUnsigned(t).Some? then Some(ParseUnsigned(t).value as int) else None)
    ensures t != [] && t[0] == '-' ==> r == (if ParseUnsigned(t[1..]).Some? then Some(-(ParseUnsigned(t[1..]).value as int)) else None)
    ensures t != [] && t[0] == '+' ==> r == (if ParseUnsigned(t[1..]).Some? then Some(ParseUnsigned(t[1..]).value as int) else None)
  {
    if t == [] then None
    else
      var u := if t[0] == '-' || t[0] == '+' then t[1..] else t;
      var m := ParseUnsigned(u);
      if m.None? then None else Some(if t[0] == '-' then -(m.value as int) else m.value as int)
  }

  /**
   * `Number.parseInt(s)` with no radix: leading white space is skipped, one
   * `+` or `-` is read, a `0x`/`0X` prefix selects radix 16, and the longest
   * run of digits that follows is the value; `None` (NaN) when that run is
   * empty. A negative zero is 0.
   */
  function ParseInt(s: string): (r: Option<int>)
    ensures r.Some? ==> TrimStart(s) != []
    ensures r.Some? && r.value < 0 ==> TrimStart(s)[0] == '-'
    ensures TrimStart(s) != [] && IsDigit(TrimStart(s)[0]) && !HasHexPrefix(TrimStart(s)) ==> r.Some? && r.value >= 0
    ensures TrimStart(s) != [] && !IsDigit(TrimStart(s)[0]) && TrimStart(s)[0] != '-' && TrimStart(s)[0] != '+' ==> r.None?
  {
    ParseSigned(TrimStart(s))
  }

  lemma {:induction false} LeadingDigitsOfDigits(s: string)
    requires AllDigits(s)
    ensures LeadingDigits(s, false) == s
  {
    if s != [] {
      LeadingDigitsOfDigits(s[1..]);
      assert s == [s[0]] + s[1..];
    }
  }

  lemma {:induction false} ValueOfNatToString(n: nat)
    ensures DigitsValue(NatToString(n), false) == n
  {
    var s := NatToString(n);
    if n >= 10 {
      ValueOfNatToString(n / 10);
      assert s[..|s| - 1] == NatToString(n / 10);
    }
  }

  /** A decimal digit is not white space. */
  lemma DigitIsNotWhiteSpace(c: char)
    requires IsDigit(c)
    ensures !IsStrWhiteSpace(c)
  {
  }

  /** Parsing the text of a number gives the number back. */
  lemma ParseNatToString(n: nat)
    ensures ParseInt(NatToString(n)) == Some(n)
  {
    var s := NatToString(n);
    DigitIsNotWhiteSpace(s[0]);
    assert TrimStart(s) == s;
    assert !HasHexPrefix(s);
    LeadingDigitsOfDigits(s);
    ValueOfNatToString(n);
  }

  /** Different numbers have different texts. */
  lemma NatToStringInjective(m: nat, n: nat)
    requires NatToString(m) == NatToString(n)
    ensures m == n
  {
    ParseNatToString(m);
    ParseNatToString(n);
  }

  /** White space before the number changes nothing. */
  lemma ParseSkipsWhiteSpace(c: char, s: string)
    requires IsStrWhiteSpace(c)
    ensures ParseInt([c] + s) == ParseInt(s)
  {
    assert ([c] + s)[1..] == s;
  }

  /** A minus sign negates what the text after it parses to. */
  lemma ParseMinus(s: string)
    requires s != [] && !IsStrWhiteSpace(s[0]) && s[0] != '-' && s[0] != '+'
    ensures ParseInt("-" + s).Some? <==> ParseInt(s).Some?
    ensures ParseInt(s).Some? ==> ParseInt("-" + s).value == -ParseInt(s).value
  {
    var m := "-" + s;
    assert m[0] == '-' && m[1..] == s;
    assert !IsStrWhiteSpace('-');
    assert TrimStart(m) == m;
    ParseAfterWhiteSpace(m, m);
    assert TrimStart(s) == s;
    ParseAfterWhiteSpace(s, s);
  }

  /** `parseInt` reads the text that follows the white space. */
  lemma ParseAfterWhiteSpace(s: string, t: string)
    requires TrimStart(s) == t
    ensures ParseInt(s) == ParseSigned(t)
  {
  }

  /** A typed amount with a minus sign is negative. */
  lemma ParseMinusExample()
    ensures ParseInt("-50") == Some(-50)
  {
    assert TrimStart("-50") == "-50";
    ParseAfterWhiteSpace("-50", "-50");
    assert "-50"[1..] == "50";
    assert ParseUnsigned("50") == Some(50) by {
      assert LeadingDigits("50", false) == "50";
      assert DigitsValue("50", false) == 50;
    }
  }

  /** Reading stops at the first character that is not a digit. */
  lemma ParseTrailingExample()
    ensures ParseInt("12abc") == Some(12)
  {
    assert TrimStart("12abc") == "12abc";
    assert ParseUnsigned("12abc") == Some(12) by {
      assert LeadingDigits("12abc", false) == "12";
      assert DigitsValue("12", false) == 12;
    }
    assert ParseSigned("12abc") == Some(12);
  }

  /** A plus sign is read and dropped. */
  lemma ParsePlusExample()
    ensures ParseInt("+50") == Some(50)
  {
    assert TrimStart("+50") == "+50";
    assert "+50"[1..] == "50";
    assert LeadingDigits("50", false) == "50";
    assert DigitsValue("50", false) == 50;
  }

  /** A `0x` prefix reads the rest in radix 16, and is NaN with no digit after it. */
  lemma ParseHexExamples()
    ensures ParseInt("0x20") == Some(32)
    ensures ParseInt("0x") == None
  {
    assert TrimStart("0x20") == "0x20";
    assert "0x20"[2..] == "20";
    assert LeadingDigits("20", true) == "20";
    assert DigitsValue("20", true) == 32;
    assert TrimStart("0x") == "0x";
    assert "0x"[2..] == "";
  }

  /** Text that starts with a letter is NaN. */
  lemma ParseLetterExample()
    ensures ParseInt("abc") == None
  {
    assert !IsStrWhiteSpace('a');
    assert TrimStart("abc") == "abc";
    ParseAfterWhiteSpace("abc", "abc");
    assert ParseUnsigned("abc") == None;
  }

  /** Empty text is NaN. */
  lemma ParseEmptyExample()
    ensures ParseInt("") == None
  {
    assert TrimStart("") == "";
  }

  // ---------------------------------------------------------------------
  // The amount pair and what is derived from it.

  /** `amount || customAmount || "0"`: the amount the summary shows. */
  function DisplayedAmount(amount: string, customAmount: string): (shown: string)
    ensures shown != ""
    ensures amount != "" ==> shown == amount
    ensures amount == "" ==> shown == if customAmount != "" then customAmount else "0"
  {
    if amount != "" then amount else if customAmount != "" then customAmount else "0"
  }

  /** The submit button is disabled exactly when both amounts are empty (`!amount && !customAmount`). */
  function SubmitEnabled(amount: string, customAmount: string): (enabled: bool)
    ensures enabled <==> amount != "" || customAmount != ""
  {
    !(amount == "" && customAmount == "")
  }

  /**
   * The impact panel shows when one of the amounts is set (`amount || customAmount`):
   * exactly when submit is available, and then it speaks of a typed or chosen
   * amount rather than the placeholder "0".
   */
  function ImpactShown(amount: string, customAmount: string): (shown: bool)
    ensures shown == SubmitEnabled(amount, customAmount)
    ensures shown ==> DisplayedAmount(amount, customAmount) in {amount, customAmount}
    ensures !shown ==> DisplayedAmount(amount, customAmount) == "0"
  {
    amount != "" || customAmount != ""
  }

  datatype Impact = Impact(people: int, meals: int, trees: int)

  /** `Math.floor(n / 25)`, `Math.floor(n / 50)`, `Math.floor(n / 5)`; a negative amount gives negative figures. */
  function ImpactOf(n: int): (i: Impact)
    ensures 25 * i.people <= n < 25 * (i.people + 1)
    ensures 50 * i.meals <= n < 50 * (i.meals + 1)
    ensures 5 * i.trees <= n < 5 * (i.trees + 1)
  {
    Impact(n / 25, n / 50, n / 5)
  }

  /** The three figures grow with the amount. */
  lemma ImpactMonotone(m: int, n: int)
    requires m <= n
    ensures ImpactOf(m).people <= ImpactOf(n).people
    ensures ImpactOf(m).meals <= ImpactOf(n).meals
    ensures ImpactOf(m).trees <= ImpactOf(n).trees
  {
    var a, b := ImpactOf(m), ImpactOf(n);
    assert 25 * a.people <= n < 25 * (b.people + 1);
    assert 50 * a.meals <= n < 50 * (b.meals + 1);
    assert 5 * a.trees <= n < 5 * (b.trees + 1);
  }

  /** The impact panel's figures for the displayed amount; `None` where `parseInt` gives NaN. */
  function ImpactFor(amount: string, customAmount: string): (r: Option<Impact>)
    ensures r.Some? <==> ParseInt(DisplayedAmount(amount, customAmount)).Some?
    ensures r.Some? ==> r.value == ImpactOf(ParseInt(DisplayedAmount(amount, customAmount)).value)
  {
    var parsed := ParseInt(DisplayedAmount(amount, customAmount));
    if parsed.Some? then Some(ImpactOf(parsed.value)) else None
  }

  // ---------------------------------------------------------------------
  // Programs and frequency.

  datatype DonateProgram = DonateProgram(
    id: string, name: string, description: string, raised: Option<nat>, goal: Option<nat>, urgent: bool)

  const Programs: seq<DonateProgram> := [
    DonateProgram("general", "General Fund", "Support our overall mission and operations", None, None, false),
    DonateProgram("clean-water", "Clean Water Initiative", "Provide clean water access to rural communities",
                  Some(45000), Some(75000), true),
    DonateProgram("education", "Education Support", "Fund educational programs and scholarships",
                  Some(28000), Some(50000), false),
    DonateProgram("environment", "Environmental Conservation", "Tree planting and habitat restoration projects",
                  Some(62000), Some(80000), false)
  ]

  /** `programs.find((p) => p.id === id)`. */
  function FindProgram(programs: seq<DonateProgram>, id: string): (r: Option<DonateProgram>)
    ensures r.Some? ==> r.value in programs && r.value.id == id
    ensures r.None? <==> forall i :: 0 <= i < |programs| ==> programs[i].id != id
  {
    if programs == [] then None
    else if programs[0].id == id then Some(programs[0])
    else FindProgram(programs[1..], id)
  }

  /** `programs.find((p) => p.id === program)` on the page's four programs. */
  function SelectedProgram(program: string): (r: Option<DonateProgram>)
    ensures r.Some? <==> program in {"general", "clean-water", "education", "environment"}
    ensures r.Some? ==> r.value in Programs && r.value.id == program
  {
    FindProgram(Programs, program)
  }

  /** The details card shows for a selected program other than the general fund. */
  function DetailsShown(program: string): (shown: bool)
    ensures shown <==> program in {"clean-water", "education", "environment"}
  {
    var p := SelectedProgram(program);
    p.Some? && p.value.id != "general"
  }

  /** `selectedProgram?.name || "Not selected"`. */
  function ProgramSummary(program: string): (text: string)
    ensures SelectedProgram(program).None? ==> text == "Not selected"
    ensures SelectedProgram(program).Some? ==> text == SelectedProgram(program).value.name
  {
    var p := SelectedProgram(program);
    if p.Some? then OrDefault(Some(p.value.name), "Not selected") else "Not selected"
  }

  /** The frequencies the form's selector offers. */
  const OfferedFrequencies: seq<string> := ["one-time", "monthly", "quarterly", "annually"]

  /**
   * The note about cancelling a recurring donation shows for every frequency
   * but "one-time": for an offered frequency, exactly when the charge word
   * names that frequency; when it is hidden the summary reads "one time".
   */
  function RecurringNoteShown(frequency: string): (shown: bool)
    ensures frequency in OfferedFrequencies ==> (shown <==> ChargeLabel(frequency) == frequency)
    ensures !shown ==> FrequencyLabel(frequency) == "one time"
  {
    assert ChargeLabel("one-time") == "annually";
    OneTimeLabel();
    frequency != "one-time"
  }

  /** The "Charged ..." line under the total, shown with the recurring note. */
  function ChargeNote(frequency: string): (note: Option<string>)
    ensures note.Some? <==> RecurringNoteShown(frequency)
    ensures frequency in OfferedFrequencies && note.Some? ==> note.value == "Charged " + frequency
  {
    if frequency != "one-time" then Some("Charged " + ChargeLabel(frequency)) else None
  }

  /** The "Charged ..." word: monthly, quarterly, or annually for anything else. */
  function ChargeLabel(frequency: string): (text: string)
    ensures text in {"monthly", "quarterly", "annually"}
    ensures text == "monthly" <==> frequency == "monthly"
    ensures text == "quarterly" <==> frequency == "quarterly"
  {
    if frequency == "monthly" then "monthly" else if frequency == "quarterly" then "quarterly" else "annually"
  }

  /** The index of the first dash, or the length when there is none. */
  function FirstDash(s: string): (k: nat)
    ensures k <= |s|
    ensures k < |s| ==> s[k] == '-'
    ensures '-' !in s[..k]
  {
    if s == [] || s[0] == '-' then 0
    else
      var k := 1 + FirstDash(s[1..]);
      assert s[..k] == [s[0]] + s[1..][..k - 1];
      k
  }

  /** `frequency.replace("-", " ")`: the first dash, if any, becomes a blank, and nothing else changes. */
  function FrequencyLabel(frequency: string): (text: string)
    ensures |text| == |frequency|
    ensures '-' !in frequency ==> text == frequency
    ensures forall i :: 0 <= i < |frequency| && frequency[i] == '-' && '-' !in frequency[..i] ==> text[i] == ' '
    ensures forall i :: 0 <= i < |frequency| && text[i] != frequency[i] ==>
      frequency[i] == '-' && text[i] == ' ' && '-' !in frequency[..i]
  {
    var k := FirstDash(frequency);
    if k == |frequency| then
      assert frequency[..k] == frequency;
      frequency
    else
      var text := frequency[..k] + " " + frequency[k + 1..];
      assert forall i :: 0 <= i < |frequency| && i != k ==> text[i] == frequency[i];
      assert forall i :: k < i < |frequency| ==> frequency[k] in frequency[..i];
      assert forall i :: 0 <= i < k ==> frequency[i] in frequency[..k];
      text
  }

  /** The summary shows "one-time" as "one time". */
  lemma OneTimeLabel()
    ensures FrequencyLabel("one-time") == "one time"
  {
    assert "one-time" == "one" + "-" + "time";
    assert "one time" == "one" + " " + "time";
    LabelOfFirstDash("one", "time");
  }

  /** The first dash becomes a blank, whatever follows it. */
  lemma LabelOfFirstDash(p: string, q: string)
    requires '-' !in p
    ensures FrequencyLabel(p + "-" + q) == p + " " + q
  {
    var f := p + "-" + q;
    var k := FirstDash(f);
    assert f[..|p|] == p && f[|p|] == '-';
    assert f[k + 1..] == q;
  }

  /** After a preset is chosen, the impact is the preset's and no other preset button is highlighted. */
  lemma PresetShown(preset: nat)
    ensures ImpactFor(NatToString(preset), "") == Some(ImpactOf(preset))
    ensures forall q :: q in PresetAmounts ==> (NatToString(preset) == NatToString(q) <==> q == preset)
  {
    ParseNatToString(preset);
    assert DisplayedAmount(NatToString(preset), "") == NatToString(preset);
    forall q | q in PresetAmounts && NatToString(preset) == NatToString(q) ensures q == preset {
      NatToStringInjective(q, preset);
    }
  }

  // ---------------------------------------------------------------------
  // The form's state cells.

  class DonationForm {
    var amount: string
    var customAmount: string
    var frequency: string
    var program: string
    var message: string

    /** At most one of the two amounts is ever set. */
    ghost predicate Valid()
      reads this
    {
      amount == "" || customAmount == ""
    }

    constructor ()
      ensures Valid() && amount == "" && customAmount == ""
      ensures frequency == "one-time" && program == "" && message == ""
    {
      amount, customAmount, frequency, program, message := "", "", "one-time", "", "";
    }

    /** Clicking a preset button: `setAmount(preset.toString())`, `setCustomAmount("")`. */
    method ChoosePreset(preset: nat)
      requires Valid()
      modifies this
      ensures Valid()
      ensures amount == NatToString(preset) && customAmount == ""
      ensures frequency == old(frequency) && program == old(program) && message == old(message)
      ensures ImpactFor(amount, customAmount) == Some(ImpactOf(preset))
      ensures forall q :: q in PresetAmounts ==> (amount == NatToString(q) <==> q == preset)
    {
      amount := NatToString(preset);
      customAmount := "";
      PresetShown(preset);
    }

    /** Typing in the custom amount field: `setCustomAmount(text)`, `setAmount("")`. */
    method TypeCustomAmount(text: string)
      requires Valid()
      modifies this
      ensures Valid()
      ensures customAmount == text && amount == ""
      ensures frequency == old(frequency) && program == old(program) && message == old(message)
    {
      customAmount := text;
      amount := "";
    }

    method SelectFrequency(value: string)
      requires Valid()
      modifies this
      ensures Valid()
      ensures frequency == value
      ensures amount == old(amount) && customAmount == old(customAmount)
      ensures program == old(program) && message == old(message)
    {
      frequency := value;
    }

    method SelectProgram(value: string)
      requires Valid()
      modifies this
      ensures Valid()
      ensures program == value
      ensures amount == old(amount) && customAmount == old(customAmount)
      ensures frequency == old(frequency) && message == old(message)
    {
      program := value;
    }

    method TypeMessage(text: string)
      requires Valid()
      modifies this
      ensures Valid()
      ensures message == text
      ensures amount == old(amount) && customAmount == old(customAmount)
      ensures frequency == old(frequency) && program == old(program)
    {
      message := text;
    }
  }
}
