/** What the two CSV weather handlers share: the rows csv-parser emits, the summary entry
    written for one row, the summary text, the sentinel for a code without rows and the
    shape of a settled promise. */
module WeatherRows {
  import opened Js

  /** One CSV record as csv-parser emits it: header name to cell text. */
  type CsvRow = map<string, string>

  /** The cell `row.column` as a template literal prints it (`undefined` for a missing column). */
  function Field(row: CsvRow, column: string): (r: string)
    ensures column in row ==> r == row[column]
    ensures column !in row ==> r == "undefined"
  {
    if column in row then row[column] else "undefined"
  }

  /** The summary entry of one row: `Month: Tmin x°C, Tmax y°C`. */
  function Entry(row: CsvRow): string {
    Field(row, "Month") + ": Tmin " + Field(row, "tmin") + "°C, Tmax " + Field(row, "tmax") + "°C"
  }

  /** The entries of a list of rows, in the same order. */
  function Entries(rows: seq<CsvRow>): (r: seq<string>)
    ensures |r| == |rows|
    ensures forall i :: 0 <= i < |rows| ==> r[i] == Entry(rows[i])
  {
    seq(|rows|, i requires 0 <= i < |rows| => Entry(rows[i]))
  }

  /** The summary: one entry per row, joined by `"; "`. */
  function Summary(rows: seq<CsvRow>): string {
    Join(Entries(rows), "; ")
  }

  /** Each row's entry, and so its month name, appears in the summary. */
  lemma EveryRowInSummary(rows: seq<CsvRow>, i: nat)
    requires i < |rows|
    ensures IsInfix(Entry(rows[i]), Summary(rows))
    ensures IsInfix(Field(rows[i], "Month"), Summary(rows))
  {
    var e := Entry(rows[i]);
    var month := Field(rows[i], "Month");
    JoinContainsEachPart(Entries(rows), "; ", i);
    assert e[..|month|] == month;
    assert InfixAt(month, e, 0);
    InfixTransitive(month, e, Summary(rows));
  }

  /** The rows a handler keeps, in file order: those for which `keep` holds. */
  function FilterRows(rows: seq<CsvRow>, keep: CsvRow -> bool): (r: seq<CsvRow>)
    ensures |r| <= |rows|
    ensures forall row :: row in r <==> row in rows && keep(row)
    decreases |rows|
  {
    if rows == [] then []
    else
      var last := rows[|rows| - 1];
      FilterRows(rows[..|rows| - 1], keep) + (if keep(last) then [last] else [])
  }

  /** Filtering distributes over concatenation: the kept rows stay in file order. */
  lemma {:induction false} FilterRowsOfConcat(a: seq<CsvRow>, b: seq<CsvRow>, keep: CsvRow -> bool)
    ensures FilterRows(a + b, keep) == FilterRows(a, keep) + FilterRows(b, keep)
    decreases |b|
  {
    if b != [] {
      var b' := b[..|b| - 1];
      assert (a + b)[..|a + b| - 1] == a + b';
      FilterRowsOfConcat(a, b', keep);
    } else {
      assert a + b == a;
    }
  }

  /** The resolution for a code with no rows. */
  function NotFound(isoCode: string): string {
    "Keine Wetterdaten für ISO-Code " + isoCode + " gefunden."
  }

  /** The rejection for a failing CSV stream. */
  function ReadError(message: string): string {
    "Fehler beim Einlesen der Wetterdaten: " + message
  }

  /** What the CSV parser delivers: its rows, then either `end` or an `error` of its own with a
      message. A read error of the file stream is not passed on through `pipe`, so it never
      appears here. */
  datatype CsvRead = CsvRead(rows: seq<CsvRow>, error: Option<string>)

  /** How the returned promise settles. */
  datatype WeatherResult = Resolved(text: string) | Rejected(reason: string)
}
