/**
 * `parseCsvResults` (src/services/energyPlusService.ts): reads the hourly
 * results EnergyPlus writes as CSV. The header row names the columns; the
 * first column whose name mentions a temperature, a humidity or a date/time
 * is used for each. Every later row that has the temperature column becomes
 * one reading, and at most the first 100 readings are returned.
 *
 * `parse` stands for `parseFloat`, with `None` for NaN.
 */
module CsvResults {
  import opened Wrappers
  import opened ModelTypes
  import Text

  /**
   * One reading. `time` is `None` where the time column lies past the end of
   * the row (the field is then `undefined`); `humidity` is present exactly when
   * the header has a humidity column.
   */
  datatype Reading = Reading(time: Option<string>, temperature: real, humidity: Option<real>)

  datatype Column = TemperatureColumn | HumidityColumn | TimeColumn

  /** Whether a (trimmed) header names the column, compared in lower case. */
  predicate HeaderMatches(c: Column, header: string) {
    var h := Text.ToLower(header);
    match c
    case TemperatureColumn => Text.Contains(h, "temperature") || Text.Contains(h, "zona mean air temperature")
    case HumidityColumn => Text.Contains(h, "humidity") || Text.Contains(h, "relative humidity")
    case TimeColumn => Text.Contains(h, "date") || Text.Contains(h, "time")
  }

  /** The longer keywords add nothing: each contains the shorter one. */
  lemma LongerKeywordsRedundant(header: string)
    ensures HeaderMatches(TemperatureColumn, header) <==> Text.Contains(Text.ToLower(header), "temperature")
    ensures HeaderMatches(HumidityColumn, header) <==> Text.Contains(Text.ToLower(header), "humidity")
  {
    var h := Text.ToLower(header);
    if Text.Contains(h, "zona mean air temperature") {
      Text.InfixContains("zona mean air ", "temperature", "");
      assert "zona mean air " + "temperature" + "" == "zona mean air temperature";
      Text.ContainsTransitive(h, "zona mean air temperature", "temperature");
    }
    if Text.Contains(h, "relative humidity") {
      Text.InfixContains("relative ", "humidity", "");
      assert "relative " + "humidity" + "" == "relative humidity";
      Text.ContainsTransitive(h, "relative humidity", "humidity");
    }
  }

  /** `findIndex`: the first header that names the column, or -1 when none does. */
  function FindIndex(headers: seq<string>, c: Column): (r: int)
    ensures -1 <= r < |headers|
    ensures r >= 0 ==> HeaderMatches(c, headers[r])
    ensures forall k :: 0 <= k < |headers| && (r < 0 || k < r) ==> !HeaderMatches(c, headers[k])
  {
    if headers == [] then -1
    else if HeaderMatches(c, headers[0]) then 0
    else
      var r := FindIndex(headers[1..], c);
      if r < 0 then -1 else r + 1
  }

  /** Each part trimmed. */
  function TrimAll(parts: seq<string>): (r: seq<string>)
    ensures |r| == |parts|
  {
    if parts == [] then [] else [Text.Trim(parts[0])] + TrimAll(parts[1..])
  }

  /** The fields of one line: split at commas, each trimmed. */
  function Fields(line: string): (values: seq<string>)
    ensures |values| >= 1
  {
    TrimAll(Text.Split(line, ','))
  }

  /** The lines of the trimmed content; there is always at least one, the header row. */
  function Lines(csv: string): (lines: seq<string>)
    ensures |lines| >= 1
  {
    Text.Split(Text.Trim(csv), '\n')
  }

  /** Where the three columns are, each -1 when the header has none. */
  datatype Layout = Layout(temperature: int, humidity: int, time: int)

  function HeaderLayout(headers: seq<string>): Layout {
    Layout(FindIndex(headers, TemperatureColumn), FindIndex(headers, HumidityColumn), FindIndex(headers, TimeColumn))
  }

  /** The fields of each line. */
  function FieldsOfEach(lines: seq<string>): (rows: seq<seq<string>>)
    ensures |rows| == |lines|
  {
    if lines == [] then [] else [Fields(lines[0])] + FieldsOfEach(lines[1..])
  }

  /** Row `k` holds the fields of line `k`. */
  lemma {:induction false} FieldsOfEachAt(lines: seq<string>, k: nat)
    requires k < |lines|
    ensures FieldsOfEach(lines)[k] == Fields(lines[k])
  {
    if k > 0 {
      FieldsOfEachAt(lines[1..], k - 1);
    }
  }

  /** The fields of every line; row 0 holds the headers. */
  function Rows(csv: string): (rows: seq<seq<string>>)
    ensures |rows| == |Lines(csv)| >= 1
  {
    FieldsOfEach(Lines(csv))
  }

  /** The field at `k`, or `None` where the row is too short (`undefined`). */
  function FieldAt(values: seq<string>, k: int): Option<string> {
    if 0 <= k < |values| then Some(values[k]) else None
  }

  /** `parseFloat(x) || 0`: a missing field, NaN and 0 all give 0. */
  function Number(parse: string -> Option<real>, field: Option<string>): (r: real)
    ensures field.Some? && parse(field.value).Some? && parse(field.value).value != 0.0 ==> r == parse(field.value).value
    ensures field.None? || parse(field.value).None? ==> r == 0.0
  {
    if field.None? then 0.0 else OrElse(parse(field.value), 0.0)
  }

  /** The label of a row without a time column: "Hora" and the row's number. */
  function HourLabel(i: nat): string {
    "Hora " + Text.NatToString(i)
  }

  /** The reading row `i`, split into `values`, gives if it has the temperature column. */
  function RowReading(values: seq<string>, i: nat, layout: Layout, parse: string -> Option<real>): (r: Option<Reading>)
    ensures r.Some? <==> 0 <= layout.temperature < |values|
    ensures r.Some? ==> r.value.temperature == Number(parse, FieldAt(values, layout.temperature))
    ensures r.Some? ==> (r.value.humidity.Some? <==> layout.humidity >= 0)
    ensures r.Some? && layout.time < 0 ==> r.value.time == Some(HourLabel(i))
    ensures r.Some? && layout.time >= 0 ==> r.value.time == FieldAt(values, layout.time)
  {
    if |values| > layout.temperature && layout.temperature >= 0 then
      Some(Reading(if layout.time >= 0 then FieldAt(values, layout.time) else Some(HourLabel(i)),
                   Number(parse, FieldAt(values, layout.temperature)),
                   if layout.humidity >= 0 then Some(Number(parse, FieldAt(values, layout.humidity))) else None))
    else None
  }

  function OptionToSeq(r: Option<Reading>): seq<Reading> {
    if r.Some? then [r.value] else []
  }

  /** The readings of rows 1 to `n - 1`, in order. */
  function ReadingsUpTo(rows: seq<seq<string>>, n: nat, layout: Layout, parse: string -> Option<real>): seq<Reading>
    requires n <= |rows|
  {
    if n <= 1 then []
    else ReadingsUpTo(rows, n - 1, layout, parse) + OptionToSeq(RowReading(rows[n - 1], n - 1, layout, parse))
  }

  /** Every reading of the file, before the limit of 100. */
  function CsvReadings(csv: string, parse: string -> Option<real>): seq<Reading> {
    var rows := Rows(csv);
    ReadingsUpTo(rows, |rows|, HeaderLayout(rows[0]), parse)
  }

  /** `slice(0, 100)`. */
  function FirstHundred(rs: seq<Reading>): (r: seq<Reading>)
    ensures |r| <= 100 && |r| <= |rs| && r == rs[..|r|]
    ensures |rs| <= 100 ==> r == rs
    ensures |rs| > 100 ==> r == rs[..100]
  {
    if |rs| <= 100 then rs else rs[..100]
  }

  // ---------------------------------------------------------------------------
  // Properties

  /** No row gives more than one reading, and the header row gives none. */
  lemma {:induction false} AtMostOneReadingPerRow(rows: seq<seq<string>>, n: nat, layout: Layout, parse: string -> Option<real>)
    requires 1 <= n <= |rows|
    ensures |ReadingsUpTo(rows, n, layout, parse)| <= n - 1
  {
    if n > 1 {
      AtMostOneReadingPerRow(rows, n - 1, layout, parse);
    }
  }

  /** Without a temperature column there are no readings at all. */
  lemma {:induction false} NoTemperatureNoReadings(rows: seq<seq<string>>, n: nat, layout: Layout, parse: string -> Option<real>)
    requires n <= |rows| && layout.temperature < 0
    ensures ReadingsUpTo(rows, n, layout, parse) == []
  {
    if n > 1 {
      NoTemperatureNoReadings(rows, n - 1, layout, parse);
    }
  }

  /** Every reading carries a humidity exactly when the header has a humidity column. */
  lemma {:induction false} HumidityIffColumn(rows: seq<seq<string>>, n: nat, layout: Layout, parse: string -> Option<real>)
    requires n <= |rows|
    ensures forall r :: r in ReadingsUpTo(rows, n, layout, parse) ==> (r.humidity.Some? <==> layout.humidity >= 0)
  {
    if n > 1 {
      HumidityIffColumn(rows, n - 1, layout, parse);
    }
  }

  /**
   * When every data row has the temperature column, row `k + 1` gives reading
   * `k`: its temperature is that field's number, and without a time column its
   * time is "Hora k+1".
   */
  lemma {:induction false} EveryRowRead(rows: seq<seq<string>>, n: nat, layout: Layout, parse: string -> Option<real>)
    requires 1 <= n <= |rows| && layout.temperature >= 0
    requires forall i :: 1 <= i < n ==> |rows[i]| > layout.temperature
    ensures var rs := ReadingsUpTo(rows, n, layout, parse);
            && |rs| == n - 1
            && (forall k :: 0 <= k < n - 1 ==>
                  && RowReading(rows[k + 1], k + 1, layout, parse) == Some(rs[k])
                  && rs[k].temperature == Number(parse, FieldAt(rows[k + 1], layout.temperature))
                  && (layout.time < 0 ==> rs[k].time == Some(HourLabel(k + 1))))
  {
    if n > 1 {
      EveryRowRead(rows, n - 1, layout, parse);
      var prev := ReadingsUpTo(rows, n - 1, layout, parse);
      var row := RowReading(rows[n - 1], n - 1, layout, parse);
      assert row.Some?;
      var rs := prev + [row.value];
      assert ReadingsUpTo(rows, n, layout, parse) == rs;
      forall k | 0 <= k < n - 2
        ensures rs[k] == prev[k]
      {
      }
    }
  }

  /** Rows without a time column are labelled "Hora 1", "Hora 2", ...: different rows, different labels. */
  lemma HourLabelsDistinct(i: nat, j: nat)
    requires i != j
    ensures HourLabel(i) != HourLabel(j)
  {
    if HourLabel(i) == HourLabel(j) {
      var p := "Hora ";
      assert Text.NatToString(i) == HourLabel(i)[|p|..];
      assert Text.NatToString(j) == HourLabel(j)[|p|..];
      Text.DecimalValueOfNatToString(i);
      Text.DecimalValueOfNatToString(j);
    }
  }

  /** Row `i` adds its reading, if any, after those of the rows before it. */
  lemma ReadingsStep(rows: seq<seq<string>>, i: nat, layout: Layout, parse: string -> Option<real>)
    requires 1 <= i < |rows|
    ensures ReadingsUpTo(rows, i + 1, layout, parse)
         == ReadingsUpTo(rows, i, layout, parse) + OptionToSeq(RowReading(rows[i], i, layout, parse))
  {
  }

  /**
   * The loop of `parseCsvResults`: every line after the header, in order, adds
   * the reading its row holds under the header's column layout.
   */
  method ReadLines(lines: seq<string>, layout: Layout, parse: string -> Option<real>) returns (all: seq<Reading>)
    requires |lines| >= 1
    ensures all == ReadingsUpTo(FieldsOfEach(lines), |lines|, layout, parse)
  {
    ghost var rows := FieldsOfEach(lines);
    all := [];
    var i := 1;
    while i < |lines|
      invariant 1 <= i <= |lines|
      invariant all == ReadingsUpTo(rows, i, layout, parse)
    {
      var values := Fields(lines[i]);
      FieldsOfEachAt(lines, i);
      ReadingsStep(rows, i, layout, parse);
      if |values| > layout.temperature && layout.temperature >= 0 {
        var time := if layout.time >= 0 then FieldAt(values, layout.time) else Some(HourLabel(i));
        var temperature := Number(parse, FieldAt(values, layout.temperature));
        var humidity := if layout.humidity >= 0 then Some(Number(parse, FieldAt(values, layout.humidity))) else None;
        all := all + [Reading(time, temperature, humidity)];
      }
      i := i + 1;
    }
  }

  /**
   * `parseCsvResults`: one reading per data row that has the temperature
   * column, in row order, at most 100 of them; none at all when no header
   * names a temperature.
   */
  method ParseCsvResults(csv: string, parse: string -> Option<real>) returns (results: seq<Reading>)
    ensures results == FirstHundred(CsvReadings(csv, parse))
    ensures |results| <= 100
    ensures |results| <= |Lines(csv)| - 1
    ensures HeaderLayout(Rows(csv)[0]).temperature < 0 ==> results == []
  {
    var lines := Lines(csv);
    var layout := HeaderLayout(Fields(lines[0]));
    var all := ReadLines(lines, layout, parse);
    results := FirstHundred(all);
    AtMostOneReadingPerRow(Rows(csv), |lines|, layout, parse);
    if layout.temperature < 0 {
      NoTemperatureNoReadings(Rows(csv), |lines|, layout, parse);
    }
  }
}
