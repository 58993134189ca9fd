/**
 * The advanced search panel: a six-field filter record held in one state
 * cell. Every edit replaces one field and hands the whole new record to the
 * page's `onSearch` callback; "Clear Filters" restores the empty record and
 * hands that over. The badge counts the fields that are in use.
 */
module AdvancedSearch {
  import opened Support

  /** The `{ min?: number, max?: number }` amount object; numbers are modelled as integers. */
  datatype AmountRange = AmountRange(min: Option<int>, max: Option<int>)

  const NoAmounts := AmountRange(None, None)

  datatype SearchFilters = SearchFilters(
    query: string,
    category: string,
    status: string,
    dateRange: DateRange,
    amount: AmountRange,
    location: string)

  /** The record the panel starts with and returns to on clear: empty strings and empty objects. */
  const InitialFilters := SearchFilters("", "", "", NoDates, NoAmounts, "")

  /** The six keys of the record, in declaration order. */
  datatype Key = QueryKey | CategoryKey | StatusKey | DateRangeKey | AmountKey | LocationKey

  /** A field's value, as `Object.values` yields it. */
  datatype FieldValue = Text(text: string) | Dates(dates: DateRange) | Amounts(amounts: AmountRange)

  /** One `updateFilter(key, value)` call; the key and the type of its value agree. */
  datatype Update =
    | SetQuery(query: string)
    | SetCategory(category: string)
    | SetStatus(status: string)
    | SetDateRange(dates: DateRange)
    | SetAmount(amounts: AmountRange)
    | SetLocation(location: string)

  function KeyOf(u: Update): Key {
    match u
    case SetQuery(_) => QueryKey
    case SetCategory(_) => CategoryKey
    case SetStatus(_) => StatusKey
    case SetDateRange(_) => DateRangeKey
    case SetAmount(_) => AmountKey
    case SetLocation(_) => LocationKey
  }

  function ValueOf(u: Update): FieldValue {
    match u
    case SetQuery(s) => Text(s)
    case SetCategory(s) => Text(s)
    case SetStatus(s) => Text(s)
    case SetDateRange(d) => Dates(d)
    case SetAmount(a) => Amounts(a)
    case SetLocation(s) => Text(s)
  }

  /** `filters[key]`. */
  function Get(f: SearchFilters, k: Key): FieldValue {
    match k
    case QueryKey => Text(f.query)
    case CategoryKey => Text(f.category)
    case StatusKey => Text(f.status)
    case DateRangeKey => Dates(f.dateRange)
    case AmountKey => Amounts(f.amount)
    case LocationKey => Text(f.location)
  }

  /** `{ ...filters, [key]: value }`: field `key` takes the new value, the other five keep theirs. */
  function Apply(f: SearchFilters, u: Update): (r: SearchFilters)
    ensures Get(r, KeyOf(u)) == ValueOf(u)
    ensures forall k :: k != KeyOf(u) ==> Get(r, k) == Get(f, k)
  {
    match u
    case SetQuery(s) => f.(query := s)
    case SetCategory(s) => f.(category := s)
    case SetStatus(s) => f.(status := s)
    case SetDateRange(d) => f.(dateRange := d)
    case SetAmount(a) => f.(amount := a)
    case SetLocation(s) => f.(location := s)
  }

  /** A record is determined by its six fields. */
  lemma FieldsDetermineRecord(f: SearchFilters, g: SearchFilters)
    requires forall k :: Get(f, k) == Get(g, k)
    ensures f == g
  {
    assert Get(f, QueryKey) == Get(g, QueryKey);
    assert Get(f, CategoryKey) == Get(g, CategoryKey);
    assert Get(f, StatusKey) == Get(g, StatusKey);
    assert Get(f, DateRangeKey) == Get(g, DateRangeKey);
    assert Get(f, AmountKey) == Get(g, AmountKey);
    assert Get(f, LocationKey) == Get(g, LocationKey);
  }

  /** Updates of two different keys give the same record in either order. */
  lemma UpdatesCommute(f: SearchFilters, u: Update, v: Update)
    requires KeyOf(u) != KeyOf(v)
    ensures Apply(Apply(f, u), v) == Apply(Apply(f, v), u)
  {
    var uv := Apply(Apply(f, u), v);
    var vu := Apply(Apply(f, v), u);
    forall k ensures Get(uv, k) == Get(vu, k) {
      if k == KeyOf(u) {
        assert Get(uv, k) == ValueOf(u) == Get(vu, k);
      } else if k == KeyOf(v) {
        assert Get(uv, k) == ValueOf(v) == Get(vu, k);
      }
    }
    FieldsDetermineRecord(uv, vu);
  }

  /** A later update of the same key overwrites an earlier one. */
  lemma UpdateOverwrites(f: SearchFilters, u: Update, v: Update)
    requires KeyOf(u) == KeyOf(v)
    ensures Apply(Apply(f, u), v) == Apply(f, v)
  {
    var uv := Apply(Apply(f, u), v);
    forall k ensures Get(uv, k) == Get(Apply(f, v), k) {
    }
    FieldsDetermineRecord(uv, Apply(f, v));
  }

  // ---------------------------------------------------------------------
  // The active-filter count.

  /**
   * The filter in `activeFiltersCount`: a string is active when it is not "";
   * an object when some value in it is defined and not "" (a date or a
   * number never equals "").
   */
  function Active(v: FieldValue): (b: bool)
    ensures !b <==> v in {Text(""), Dates(NoDates), Amounts(NoAmounts)}
  {
    match v
    case Text(s) => s != ""
    case Dates(d) => d.from.Some? || d.to.Some?
    case Amounts(a) => a.min.Some? || a.max.Some?
  }

  /** `Object.values(filters)`, in declaration order. */
  function Values(f: SearchFilters): (vs: seq<FieldValue>)
    ensures |vs| == 6
  {
    [Get(f, QueryKey), Get(f, CategoryKey), Get(f, StatusKey),
     Get(f, DateRangeKey), Get(f, AmountKey), Get(f, LocationKey)]
  }

  function CountActive(vs: seq<FieldValue>): (n: nat)
    ensures n <= |vs|
    ensures n == 0 <==> forall i :: 0 <= i < |vs| ==> !Active(vs[i])
  {
    if vs == [] then 0 else (if Active(vs[0]) then 1 else 0) + CountActive(vs[1..])
  }

  /** `activeFiltersCount`: between 0 and 6, and 0 exactly for the initial record. */
  function ActiveCount(f: SearchFilters): (n: nat)
    ensures n <= 6
    ensures n == 0 <==> f == InitialFilters
  {
    var vs := Values(f);
    assert vs[0] == Text(f.query) && vs[1] == Text(f.category) && vs[2] == Text(f.status);
    assert vs[3] == Dates(f.dateRange) && vs[4] == Amounts(f.amount) && vs[5] == Text(f.location);
    CountActive(vs)
  }

  /** Each key in use adds one to the count: the count of an updated record changes only by the updated field. */
  lemma ActiveCountAfterUpdate(f: SearchFilters, u: Update)
    ensures ActiveCount(Apply(f, u)) ==
      ActiveCount(f) - (if Active(Get(f, KeyOf(u))) then 1 else 0) + (if Active(ValueOf(u)) then 1 else 0)
  {
    var g := Apply(f, u);
    CountSix(Values(f));
    CountSix(Values(g));
  }

  function Ind(v: FieldValue): nat {
    if Active(v) then 1 else 0
  }

  lemma {:induction false} CountSix(vs: seq<FieldValue>)
    requires |vs| == 6
    ensures CountActive(vs) == Ind(vs[0]) + Ind(vs[1]) + Ind(vs[2]) + Ind(vs[3]) + Ind(vs[4]) + Ind(vs[5])
  {
    var t := vs;
    assert CountActive(t) == Ind(t[0]) + CountActive(t[1..]);
    t := t[1..];
    assert CountActive(t) == Ind(t[0]) + CountActive(t[1..]);
    t := t[1..];
    assert CountActive(t) == Ind(t[0]) + CountActive(t[1..]);
    t := t[1..];
    assert CountActive(t) == Ind(t[0]) + CountActive(t[1..]);
    t := t[1..];
    assert CountActive(t) == Ind(t[0]) + CountActive(t[1..]);
    t := t[1..];
    assert CountActive(t) == Ind(t[0]) + CountActive(t[1..]);
    assert t[1..] == [];
  }

  /** Choosing "All categories" or "All status" stores "all", which counts as an active filter. */
  lemma SelectingAllCounts(f: SearchFilters)
    ensures ActiveCount(Apply(f, SetCategory("all"))) >= 1
    ensures ActiveCount(Apply(f, SetStatus("all"))) >= 1
  {
  }

  /** `{query: "water"}` counts 1; adding an amount minimum of 10 makes it 2. */
  lemma CountExamples()
    ensures ActiveCount(Apply(InitialFilters, SetQuery("water"))) == 1
    ensures ActiveCount(Apply(Apply(InitialFilters, SetQuery("water")), SetAmount(AmountRange(Some(10), None)))) == 2
  {
    ActiveCountAfterUpdate(InitialFilters, SetQuery("water"));
    ActiveCountAfterUpdate(Apply(InitialFilters, SetQuery("water")), SetAmount(AmountRange(Some(10), None)));
  }

  // ---------------------------------------------------------------------
  // The amount and date inputs.

  /** `Number(text) || undefined`, given what `Number(text)` yields (`None` for NaN): 0 and NaN become undefined. */
  function AmountInput(converted: Option<int>): (r: Option<int>)
    ensures r.None? <==> converted.None? || converted.value == 0
    ensures r.Some? ==> r == converted
  {
    if converted.Some? && converted.value != 0 then converted else None
  }

  /** `{ ...filters.amount, min: Number(text) || undefined }`: the maximum is kept. */
  function WithMin(a: AmountRange, converted: Option<int>): (r: AmountRange)
    ensures r.max == a.max && r.min == AmountInput(converted)
  {
    a.(min := AmountInput(converted))
  }

  /** `{ ...filters.amount, max: Number(text) || undefined }`: the minimum is kept. */
  function WithMax(a: AmountRange, converted: Option<int>): (r: AmountRange)
    ensures r.min == a.min && r.max == AmountInput(converted)
  {
    a.(max := AmountInput(converted))
  }

  /** A cleared calendar stores `{}`, so the date field no longer counts as active. */
  lemma ClearedDatesInactive(f: SearchFilters)
    ensures Apply(f, SetDateRange(PickedRange(None))).dateRange == NoDates
    ensures !Active(Get(Apply(f, SetDateRange(PickedRange(None))), DateRangeKey))
  {
  }

  /** The panel's state cell and the records handed to `onSearch`, oldest first. */
  class SearchPanel {
    var filters: SearchFilters
    var emitted: seq<SearchFilters>

    constructor ()
      ensures filters == InitialFilters && emitted == []
      ensures ActiveFiltersCount() == 0
    {
      filters := InitialFilters;
      emitted := [];
    }

    function ActiveFiltersCount(): (n: nat)
      reads this
      ensures n <= 6
      ensures n == 0 <==> filters == InitialFilters
    {
      ActiveCount(filters)
    }

    /** `updateFilter(key, value)`: store the new record and hand exactly that record to `onSearch`. */
    method UpdateFilter(u: Update)
      modifies this
      ensures filters == Apply(old(filters), u)
      ensures emitted == old(emitted) + [filters]
    {
      var newFilters := Apply(filters, u);
      filters := newFilters;
      emitted := emitted + [newFilters];
    }

    /** `clearFilters()`: back to the initial record, which is emitted; the count is 0. */
    method ClearFilters()
      modifies this
      ensures filters == InitialFilters
      ensures emitted == old(emitted) + [InitialFilters]
      ensures ActiveFiltersCount() == 0
    {
      filters := InitialFilters;
      emitted := emitted + [InitialFilters];
    }

    /** The "Min amount" input. */
    method EditAmountMin(converted: Option<int>)
      modifies this
      ensures filters == old(filters).(amount := WithMin(old(filters).amount, converted))
      ensures emitted == old(emitted) + [filters]
    {
      UpdateFilter(SetAmount(WithMin(filters.amount, converted)));
    }

    /** The "Max amount" input. */
    method EditAmountMax(converted: Option<int>)
      modifies this
      ensures filters == old(filters).(amount := WithMax(old(filters).amount, converted))
      ensures emitted == old(emitted) + [filters]
    {
      UpdateFilter(SetAmount(WithMax(filters.amount, converted)));
    }

    /** The range calendar's `onSelect`; `None` is a cleared selection. */
    method SelectDates(range: Option<DateRange>)
      modifies this
      ensures filters == old(filters).(dateRange := PickedRange(range))
      ensures emitted == old(emitted) + [filters]
    {
      UpdateFilter(SetDateRange(PickedRange(range)));
    }
  }
}
