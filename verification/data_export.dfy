/**
 * The data export panel: an options record (data type, file format, date
 * range, fields to include) held in one state cell and changed by the
 * selects and the field checkboxes, plus the export action, which flags the
 * export as running, names the file after the data type, the day and the
 * format, offers it for download and clears the flag again.
 */
module DataExport {
  import opened Support

  datatype ExportOptions = ExportOptions(
    dataType: string,
    format: string,
    dateRange: DateRange,
    includeFields: seq<string>)

  const InitialOptions := ExportOptions("", "csv", NoDates, [])

  /** An entry of the data-type catalogue: the select's value, its displayed title and the fields offered as checkboxes. */
  datatype DataTypeEntry = DataTypeEntry(value: string, title: string, fields: seq<string>)

  const Catalogue: seq<DataTypeEntry> := [
    DataTypeEntry("donations", "Donations", ["amount", "donor_name", "date", "program", "payment_method"]),
    DataTypeEntry("volunteers", "Volunteers", ["name", "email", "phone", "skills", "hours_volunteered"]),
    DataTypeEntry("events", "Events", ["title", "date", "location", "participants", "status"]),
    DataTypeEntry("programs", "Programs", ["title", "description", "funding_goal", "current_funding", "status"])
  ]

  /** The formats the format select offers. */
  const Formats: seq<string> := ["csv", "xlsx", "json", "pdf"]

  /** `fields.filter((f) => f !== field)`. */
  function RemoveAll(fields: seq<string>, field: string): (r: seq<string>)
    ensures field !in r
    ensures forall f :: f in r <==> f in fields && f != field
    ensures |r| <= |fields|
  {
    if fields == [] then []
    else if fields[0] == field then RemoveAll(fields[1..], field)
    else [fields[0]] + RemoveAll(fields[1..], field)
  }

  /** Removing keeps the relative order of the other fields: it distributes over concatenation. */
  lemma {:induction false} RemoveAllAppend(a: seq<string>, b: seq<string>, field: string)
    ensures RemoveAll(a + b, field) == RemoveAll(a, field) + RemoveAll(b, field)
  {
    if a == [] {
      assert a + b == b;
    } else {
      var ab := a + b;
      assert ab[0] == a[0] && ab[1..] == a[1..] + b;
      RemoveAllAppend(a[1..], b, field);
      if a[0] != field {
        assert [a[0]] + (RemoveAll(a[1..], field) + RemoveAll(b, field))
            == ([a[0]] + RemoveAll(a[1..], field)) + RemoveAll(b, field);
      }
    }
  }

  /** Removing a field that is not in the list leaves the list as it was. */
  lemma {:induction false} RemoveAllAbsent(fields: seq<string>, field: string)
    requires field !in fields
    ensures RemoveAll(fields, field) == fields
  {
    if fields != [] {
      assert fields[1..] + [] == fields[1..];
      assert field !in fields[1..];
      RemoveAllAbsent(fields[1..], field);
    }
  }

  /**
   * `handleFieldToggle(field, checked)`: checking appends the field at the end
   * (even when already present), unchecking removes every occurrence; no
   * other option changes.
   */
  function ToggleField(o: ExportOptions, field: string, checked: bool): (r: ExportOptions)
    ensures r.dataType == o.dataType && r.format == o.format && r.dateRange == o.dateRange
    ensures checked ==> r.includeFields == o.includeFields + [field]
    ensures !checked ==> field !in r.includeFields && r.includeFields == RemoveAll(o.includeFields, field)
  {
    o.(includeFields := if checked then o.includeFields + [field] else RemoveAll(o.includeFields, field))
  }

  /** Checking a field that was not included and then unchecking it restores the field list. */
  lemma ToggleOnThenOff(o: ExportOptions, field: string)
    requires field !in o.includeFields
    ensures ToggleField(ToggleField(o, field, true), field, false) == o
  {
    RemoveAllAppend(o.includeFields, [field], field);
    RemoveAllAbsent(o.includeFields, field);
    assert RemoveAll([field], field) == [];
  }

  /** The data-type select: the type changes and the field list is emptied; format and dates are kept. */
  function ChangeDataType(o: ExportOptions, value: string): (r: ExportOptions)
    ensures r.dataType == value && r.includeFields == []
    ensures r.format == o.format && r.dateRange == o.dateRange
  {
    o.(dataType := value, includeFields := [])
  }

  /** The format select changes only the format. */
  function ChangeFormat(o: ExportOptions, value: string): (r: ExportOptions)
    ensures r == o.(format := value)
  {
    o.(format := value)
  }

  /** The calendar changes only the date range; a cleared selection stores `{}`. */
  function ChangeDates(o: ExportOptions, range: Option<DateRange>): (r: ExportOptions)
    ensures r == o.(dateRange := PickedRange(range))
  {
    o.(dateRange := PickedRange(range))
  }

  /** `array.find((type) => type.value === value)`: the first entry with that value. */
  function Find(entries: seq<DataTypeEntry>, value: string): (r: Option<DataTypeEntry>)
    ensures r.Some? ==> r.value in entries && r.value.value == value
    ensures r.None? <==> forall i :: 0 <= i < |entries| ==> entries[i].value != value
  {
    if entries == [] then None
    else if entries[0].value == value then Some(entries[0])
    else Find(entries[1..], value)
  }

  /** `selectedDataType`. */
  function SelectedDataType(dataType: string): (r: Option<DataTypeEntry>)
    ensures r.Some? ==> r.value in Catalogue && r.value.value == dataType
    ensures r.None? <==> forall e :: e in Catalogue ==> e.value != dataType
  {
    Find(Catalogue, dataType)
  }

  /** The catalogue's values are distinct, so a matching entry is the only one; "" matches none. */
  lemma SelectedDataTypeUnique(dataType: string)
    ensures forall e :: e in Catalogue && e.value == dataType ==> SelectedDataType(dataType) == Some(e)
    ensures SelectedDataType("") == None
    ensures SelectedDataType(dataType).Some? <==> dataType in {"donations", "volunteers", "events", "programs"}
  {
  }

  /** The export button is enabled exactly when a data type is chosen and no export is running. */
  function ExportEnabled(o: ExportOptions, isExporting: bool): (enabled: bool)
    ensures enabled <==> o.dataType != "" && !isExporting
  {
    !(o.dataType == "" || isExporting)
  }

  /** `${dataType}_export_${date}.${format}`, where `date` is the day written as yyyy-MM-dd. */
  function Filename(dataType: string, date: string, format: string): (name: string)
    ensures |name| == |dataType| + |date| + |format| + 9
    ensures name[..|dataType|] == dataType
    ensures name[|dataType|..|dataType| + 8] == "_export_"
    ensures name[|dataType| + 8..|dataType| + 8 + |date|] == date
    ensures name[|name| - |format| - 1..] == "." + format
  {
    dataType + "_export_" + date + "." + format
  }

  /** Two exports of the same day with data types of equal length get the same name only for the same type and format. */
  lemma FilenameInjective(t1: string, t2: string, date: string, f1: string, f2: string)
    requires |t1| == |t2|
    requires Filename(t1, date, f1) == Filename(t2, date, f2)
    ensures t1 == t2 && f1 == f2
  {
    var n := Filename(t1, date, f1);
    assert t1 == n[..|t1|] == t2;
    assert |f1| == |f2|;
    assert "." + f1 == n[|n| - |f1| - 1..] == "." + f2;
    assert f1 == ("." + f1)[1..] == ("." + f2)[1..] == f2;
  }

  /** A file offered for download, with the value `isExporting` had at that moment. */
  datatype Download = Download(filename: string, whileExporting: bool)

  class ExportPanel {
    var options: ExportOptions
    var isExporting: bool
    var downloads: seq<Download>

    constructor ()
      ensures options == InitialOptions && !isExporting && downloads == []
    {
      options := InitialOptions;
      isExporting := false;
      downloads := [];
    }

    method HandleFieldToggle(field: string, checked: bool)
      modifies this
      ensures options == ToggleField(old(options), field, checked)
      ensures isExporting == old(isExporting) && downloads == old(downloads)
    {
      options := ToggleField(options, field, checked);
    }

    method SelectDataType(value: string)
      modifies this
      ensures options == ChangeDataType(old(options), value)
      ensures isExporting == old(isExporting) && downloads == old(downloads)
    {
      options := ChangeDataType(options, value);
    }

    method SelectFormat(value: string)
      modifies this
      ensures options == ChangeFormat(old(options), value)
      ensures isExporting == old(isExporting) && downloads == old(downloads)
    {
      options := ChangeFormat(options, value);
    }

    method SelectDates(range: Option<DateRange>)
      modifies this
      ensures options == ChangeDates(old(options), range)
      ensures isExporting == old(isExporting) && downloads == old(downloads)
    {
      options := ChangeDates(options, range);
    }

    /**
     * `handleExport()`, with `today` the current day as yyyy-MM-dd: the file
     * is offered while the export is flagged as running, and the flag is
     * cleared afterwards. The options are not changed.
     */
    method HandleExport(today: string) returns (filename: string)
      modifies this
      ensures filename == Filename(old(options).dataType, today, old(options).format)
      ensures downloads == old(downloads) + [Download(filename, true)]
      ensures !isExporting && options == old(options)
    {
      isExporting := true;
      filename := options.dataType + "_export_" + today + "." + options.format;
      downloads := downloads + [Download(filename, isExporting)];
      isExporting := false;
    }
  }
}
