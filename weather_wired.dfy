/** `getTemperatureDataByISOCode` of utils/weatherDatHandler.ts, the variant behind the
    weather route: keep the rows whose `ISO_Code` matches the code ignoring case and summarise
    them in file order under the code as passed. There is no guard on the code and no sort. */
module WeatherWired {
  import opened Js
  import opened WeatherRows

  /** The row filter; `row.ISO_Code.toUpperCase()` is called on every row, so the callers
      below require every row to carry the column. */
  predicate Matches(row: CsvRow, isoCode: string) {
    Upper(Field(row, "ISO_Code")) == Upper(isoCode)
  }

  function KeptRows(rows: seq<CsvRow>, isoCode: string): seq<CsvRow> {
    FilterRows(rows, row => Matches(row, isoCode))
  }

  /** Every row carries an `ISO_Code` cell. */
  predicate AllCoded(rows: seq<CsvRow>) {
    forall i :: 0 <= i < |rows| ==> "ISO_Code" in rows[i]
  }

  /** How the promise settles for a code and a CSV stream. */
  function TemperatureReport(isoCode: string, read: CsvRead): WeatherResult {
    if read.error.Some? then Rejected(ReadError(read.error.value))
    else
      var kept := KeptRows(read.rows, isoCode);
      if kept == [] then Resolved(NotFound(isoCode))
      else Resolved("Wetterdaten für " + isoCode + ": " + Summary(kept))
  }

  /** `getTemperatureDataByISOCode`: the `data` callback collects the matching rows, `end`
      summarises them, `error` rejects. */
  method GetTemperatureDataByIsoCode(isoCode: string, read: CsvRead) returns (r: WeatherResult)
    requires AllCoded(read.rows)
    ensures r == TemperatureReport(isoCode, read)
  {
    if read.error.Some? {
      return Rejected(ReadError(read.error.value));
    }
    var weatherData: seq<CsvRow> := [];
    var index := 0;
    while index < |read.rows|
      invariant 0 <= index <= |read.rows|
      invariant weatherData == KeptRows(read.rows[..index], isoCode)
    {
      var row := read.rows[index];
      if Upper(row["ISO_Code"]) == Upper(isoCode) {
        weatherData := weatherData + [row];
      }
      assert read.rows[..index + 1][..index] == read.rows[..index];
      index := index + 1;
    }
    assert read.rows[..index] == read.rows;
    if |weatherData| == 0 {
      return Resolved(NotFound(isoCode));
    }
    r := Resolved("Wetterdaten für " + isoCode + ": " + Summary(weatherData));
  }

  /** Only a failing stream rejects; in particular an empty code is looked up like any other. */
  lemma RejectedIff(isoCode: string, read: CsvRead)
    ensures TemperatureReport(isoCode, read).Rejected? <==> read.error.Some?
    ensures read.error.Some? ==> TemperatureReport(isoCode, read).reason == ReadError(read.error.value)
  {
  }

  /** The empty code matches exactly the rows whose code is empty. */
  lemma EmptyCodeMatchesEmptyCells(row: CsvRow)
    requires "ISO_Code" in row
    ensures Matches(row, "") <==> row["ISO_Code"] == ""
  {
    if Matches(row, "") {
      assert |Upper(row["ISO_Code"])| == |row["ISO_Code"]|;
    }
  }

  /** A code without matching rows resolves to the sentinel text. */
  lemma NotFoundIff(isoCode: string, read: CsvRead)
    requires read.error.None?
    ensures TemperatureReport(isoCode, read) == Resolved(NotFound(isoCode))
      <==> forall row :: row in read.rows ==> !Matches(row, isoCode)
  {
    var kept := KeptRows(read.rows, isoCode);
    if kept != [] {
      var text := TemperatureReport(isoCode, read).text;
      assert text[0] == 'W' && NotFound(isoCode)[0] == 'K';
      assert kept[0] in kept;
    }
  }

  /** A found report carries the code as passed and one entry per matching row, in file order:
      the kept rows of a concatenation are the kept rows of each part, one after the other. */
  lemma FoundReportLayout(isoCode: string, read: CsvRead, front: seq<CsvRow>, back: seq<CsvRow>)
    requires read.error.None? && read.rows == front + back
    requires exists row :: row in read.rows && Matches(row, isoCode)
    ensures var kept := KeptRows(read.rows, isoCode);
      && kept == KeptRows(front, isoCode) + KeptRows(back, isoCode)
      && (forall row :: row in kept <==> row in read.rows && Matches(row, isoCode))
      && TemperatureReport(isoCode, read) == Resolved("Wetterdaten für " + isoCode + ": " + Summary(kept))
  {
    var row :| row in read.rows && Matches(row, isoCode);
    assert row in KeptRows(read.rows, isoCode);
    FilterRowsOfConcat(front, back, row => Matches(row, isoCode));
  }

  /** When every row matches, the summary lists all rows in file order. */
  lemma {:induction false} AllMatchingKeepsAll(rows: seq<CsvRow>, isoCode: string)
    requires forall i :: 0 <= i < |rows| ==> Matches(rows[i], isoCode)
    ensures KeptRows(rows, isoCode) == rows
    decreases |rows|
  {
    if rows != [] {
      AllMatchingKeepsAll(rows[..|rows| - 1], isoCode);
      assert rows == rows[..|rows| - 1] + [rows[|rows| - 1]];
    }
  }

  /** The code is compared ignoring case. */
  lemma {:induction false} MatchIgnoresCase(rows: seq<CsvRow>, code1: string, code2: string)
    requires Upper(code1) == Upper(code2)
    ensures KeptRows(rows, code1) == KeptRows(rows, code2)
    decreases |rows|
  {
    if rows != [] {
      MatchIgnoresCase(rows[..|rows| - 1], code1, code2);
    }
  }
}
