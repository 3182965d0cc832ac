/** `getTemperatureDataByISOCode` of utils/weatherDataHandler.ts: reject an empty code, keep
    the rows whose `ISO3_Code` matches the code ignoring case, sort them by calendar month
    and summarise them under the country name of the first kept row. */
module WeatherSorted {
  import opened Js
  import opened WeatherRows

  const InvalidCode := "Ungültiger ISO-Code übergeben."

  const MonthOrder: seq<string> := [
    "January", "February", "March", "April", "May", "June",
    "July", "August", "September", "October", "November", "December"]

  /** `list.indexOf(x)`: the first index holding `x`, or -1. */
  function IndexOf(list: seq<string>, x: string): (r: int)
    ensures -1 <= r < |list|
    ensures r == -1 <==> x !in list
    ensures 0 <= r ==> list[r] == x && forall j :: 0 <= j < r ==> list[j] != x
    decreases |list|
  {
    if list == [] then -1
    else if list[0] == x then 0
    else var i := IndexOf(list[1..], x); if i == -1 then -1 else i + 1
  }

  /** The sort key of a row: its month's place in the calendar, -1 for anything else. */
  function MonthKey(row: CsvRow): int {
    IndexOf(MonthOrder, Field(row, "Month"))
  }

  // ---------------------------------------------------------------------------
  // The month sort, for the comparator `(a, b) => key(a) - key(b)`

  /** Insert `x` into `s` behind every row whose key is not larger. */
  function Insert(x: CsvRow, s: seq<CsvRow>, key: CsvRow -> int): seq<CsvRow>
    decreases |s|
  {
    if s == [] then [x]
    else if key(s[|s| - 1]) > key(x) then Insert(x, s[..|s| - 1], key) + [s[|s| - 1]]
    else s + [x]
  }

  /** The rows in key order, rows with the same key in their original order
      (`Array.prototype.sort` is stable). */
  function SortBy(s: seq<CsvRow>, key: CsvRow -> int): seq<CsvRow>
    decreases |s|
  {
    if s == [] then [] else Insert(s[|s| - 1], SortBy(s[..|s| - 1], key), key)
  }

  predicate SortedBy(s: seq<CsvRow>, key: CsvRow -> int) {
    forall i, j :: 0 <= i < j < |s| ==> key(s[i]) <= key(s[j])
  }

  /** The rows of `s` with key `k`, in order. */
  function WithKey(s: seq<CsvRow>, key: CsvRow -> int, k: int): seq<CsvRow>
    decreases |s|
  {
    if s == [] then []
    else WithKey(s[..|s| - 1], key, k) + (if key(s[|s| - 1]) == k then [s[|s| - 1]] else [])
  }

  lemma {:induction false} InsertPermutes(x: CsvRow, s: seq<CsvRow>, key: CsvRow -> int)
    ensures multiset(Insert(x, s, key)) == multiset(s) + multiset{x}
    decreases |s|
  {
    if s != [] && key(s[|s| - 1]) > key(x) {
      var init, last := s[..|s| - 1], s[|s| - 1];
      InsertPermutes(x, init, key);
      assert s == init + [last];
    }
  }

  /** Appending a row whose key bounds every key keeps a list sorted. */
  lemma SortedAppend(t: seq<CsvRow>, y: CsvRow, key: CsvRow -> int)
    requires SortedBy(t, key)
    requires forall i :: 0 <= i < |t| ==> key(t[i]) <= key(y)
    ensures SortedBy(t + [y], key)
  {
    var u := t + [y];
    forall i, j | 0 <= i < j < |u| ensures key(u[i]) <= key(u[j]) {
      assert u[i] == t[i];
    }
  }

  /** Every key in the result of `Insert` is bounded by the larger of `x`'s and the bound of `s`. */
  lemma InsertBounded(x: CsvRow, s: seq<CsvRow>, key: CsvRow -> int, bound: int)
    requires forall i :: 0 <= i < |s| ==> key(s[i]) <= bound
    requires key(x) <= bound
    ensures forall i :: 0 <= i < |Insert(x, s, key)| ==> key(Insert(x, s, key)[i]) <= bound
  {
    var t := Insert(x, s, key);
    InsertPermutes(x, s, key);
    forall i | 0 <= i < |t| ensures key(t[i]) <= bound {
      assert t[i] in multiset(t);
      if t[i] != x {
        assert t[i] in multiset(s);
      }
    }
  }

  lemma {:induction false} InsertSorted(x: CsvRow, s: seq<CsvRow>, key: CsvRow -> int)
    requires SortedBy(s, key)
    ensures SortedBy(Insert(x, s, key), key)
    decreases |s|
  {
    if s == [] {
    } else if key(s[|s| - 1]) > key(x) {
      var init, last := s[..|s| - 1], s[|s| - 1];
      assert SortedBy(init, key);
      InsertSorted(x, init, key);
      InsertBounded(x, init, key, key(last));
      SortedAppend(Insert(x, init, key), last, key);
    } else {
      SortedAppend(s, x, key);
    }
  }

  lemma {:induction false} SortBySortedPermutation(s: seq<CsvRow>, key: CsvRow -> int)
    ensures SortedBy(SortBy(s, key), key)
    ensures multiset(SortBy(s, key)) == multiset(s)
    decreases |s|
  {
    if s != [] {
      var init := s[..|s| - 1];
      SortBySortedPermutation(init, key);
      InsertSorted(s[|s| - 1], SortBy(init, key), key);
      InsertPermutes(s[|s| - 1], SortBy(init, key), key);
      assert s == init + [s[|s| - 1]];
    }
  }

  /** Inserting `x` moves it past rows of larger keys only, so the rows of every key keep
      their relative order. */
  lemma {:induction false} InsertKeepsKeyOrder(x: CsvRow, s: seq<CsvRow>, key: CsvRow -> int, k: int)
    ensures WithKey(Insert(x, s, key), key, k) == WithKey(s + [x], key, k)
    decreases |s|
  {
    if s == [] {
      assert [x] == s + [x];
    } else if key(s[|s| - 1]) > key(x) {
      var init, last := s[..|s| - 1], s[|s| - 1];
      InsertKeepsKeyOrder(x, init, key, k);
      var t := Insert(x, init, key);
      assert (t + [last])[..|t + [last]| - 1] == t;
      assert (s + [x])[..|s + [x]| - 1] == s;
      assert (init + [x])[..|init + [x]| - 1] == init;
      var tailX := if key(x) == k then [x] else [];
      var tailLast := if key(last) == k then [last] else [];
      assert WithKey(t + [last], key, k) == WithKey(init, key, k) + tailX + tailLast;
      assert tailX + tailLast == tailLast + tailX;
      assert WithKey(s, key, k) == WithKey(init, key, k) + tailLast;
    }
  }

  /** The sort is stable: the rows of each key come out in their original order. */
  lemma {:induction false} SortByStable(s: seq<CsvRow>, key: CsvRow -> int, k: int)
    ensures WithKey(SortBy(s, key), key, k) == WithKey(s, key, k)
    decreases |s|
  {
    if s != [] {
      var init, last := s[..|s| - 1], s[|s| - 1];
      SortByStable(init, key, k);
      InsertKeepsKeyOrder(last, SortBy(init, key), key, k);
      var t := SortBy(init, key);
      assert (t + [last])[..|t + [last]| - 1] == t;
    }
  }

  lemma InsertPastLarger(x: CsvRow, p: seq<CsvRow>, y: CsvRow, key: CsvRow -> int)
    requires key(y) > key(x)
    ensures Insert(x, p + [y], key) == Insert(x, p, key) + [y]
  {
    assert (p + [y])[..|p + [y]| - 1] == p;
  }

  lemma InsertStops(x: CsvRow, p: seq<CsvRow>, key: CsvRow -> int)
    requires p == [] || key(p[|p| - 1]) <= key(x)
    ensures Insert(x, p, key) == p + [x]
  {
  }

  /** Sorting loses no row. */
  lemma SortByKeepsRows(s: seq<CsvRow>, key: CsvRow -> int, x: CsvRow)
    requires x in s
    ensures x in SortBy(s, key)
  {
    SortBySortedPermutation(s, key);
    assert x in multiset(SortBy(s, key));
  }

  /** The state of one pass after `x` has moved down to position `j`: the first `i + 1`
      rows, once `x` stops, are `target`. */
  ghost predicate PassState(s: seq<CsvRow>, j: nat, i: nat, x: CsvRow, target: seq<CsvRow>, key: CsvRow -> int) {
    j <= i < |s| && s[j] == x && target == Insert(x, s[..j], key) + s[j + 1..i + 1]
  }

  /** Swapping `x` with a larger left neighbour keeps the pass state and the rows after `i`. */
  lemma PassStep(s: seq<CsvRow>, j: nat, i: nat, x: CsvRow, target: seq<CsvRow>, key: CsvRow -> int)
    requires PassState(s, j, i, x, target, key) && 0 < j && key(s[j - 1]) > key(s[j])
    ensures PassState(s[j - 1 := s[j]][j := s[j - 1]], j - 1, i, x, target, key)
    ensures s[j - 1 := s[j]][j := s[j - 1]][i + 1..] == s[i + 1..]
  {
    var t := s[j - 1 := s[j]][j := s[j - 1]];
    var p, y := s[..j - 1], s[j - 1];
    assert s[..j] == p + [y];
    InsertPastLarger(x, p, y, key);
    assert t[..j - 1] == p;
    assert t[j..i + 1] == [y] + s[j + 1..i + 1];
  }

  /** Once `x` stops, the first `i + 1` rows are the target. */
  lemma PassDone(s: seq<CsvRow>, j: nat, i: nat, x: CsvRow, target: seq<CsvRow>, key: CsvRow -> int)
    requires PassState(s, j, i, x, target, key) && (j == 0 || key(s[j - 1]) <= key(s[j]))
    ensures s[..i + 1] == target
  {
    InsertStops(x, s[..j], key);
    assert s[..i + 1] == s[..j] + [x] + s[j + 1..i + 1];
  }

  /** One pass of the insertion sort: move `a[i]` left past the rows of a larger key. */
  method InsertLast(a: array<CsvRow>, i: nat, key: CsvRow -> int)
    requires i < a.Length
    modifies a
    ensures a[..i + 1] == Insert(old(a[i]), old(a[..i]), key)
    ensures a[i + 1..] == old(a[i + 1..])
  {
    ghost var x := a[i];
    ghost var target := Insert(x, a[..i], key);
    assert a[i + 1..i + 1] == [];
    var j := i;
    while 0 < j && key(a[j - 1]) > key(a[j])
      invariant PassState(a[..], j, i, x, target, key)
      invariant a[i + 1..] == old(a[i + 1..])
      decreases j
    {
      ghost var before := a[..];
      PassStep(before, j, i, x, target, key);
      a[j - 1], a[j] := a[j], a[j - 1];
      assert a[..] == before[j - 1 := before[j]][j := before[j - 1]];
      j := j - 1;
    }
    PassDone(a[..], j, i, x, target, key);
  }

  /** Sorting one more row of `s` inserts it into the sorted prefix. */
  lemma SortByStep(s: seq<CsvRow>, i: nat, key: CsvRow -> int)
    requires i < |s|
    ensures SortBy(s[..i + 1], key) == Insert(s[i], SortBy(s[..i], key), key)
  {
    assert s[..i + 1][..i] == s[..i];
  }

  /** `rows.sort((a, b) => key(a) - key(b))` in place: an insertion sort that moves each row
      left past the rows of a larger key. */
  method SortRowsBy(a: array<CsvRow>, key: CsvRow -> int)
    modifies a
    ensures a[..] == SortBy(old(a[..]), key)
  {
    ghost var original := a[..];
    var i := 0;
    while i < a.Length
      invariant 0 <= i <= a.Length
      invariant a[..i] == SortBy(original[..i], key)
      invariant a[i..] == original[i..]
    {
      ghost var before := a[..];
      assert before[i] == original[i] && before[..i] == a[..i];
      assert before[i + 1..] == original[i + 1..];
      InsertLast(a, i, key);
      SortByStep(original, i, key);
      i := i + 1;
    }
    assert a[..] == a[..a.Length];
    assert original == original[..a.Length];
  }

  // ---------------------------------------------------------------------------
  // The handler

  /** The row filter: a defined, non-empty `ISO3_Code` equal to the code ignoring case. */
  predicate Matches(row: CsvRow, isoCode: string) {
    "ISO3_Code" in row && row["ISO3_Code"] != "" && Upper(row["ISO3_Code"]) == Upper(isoCode)
  }

  function KeptRows(rows: seq<CsvRow>, isoCode: string): seq<CsvRow> {
    FilterRows(rows, row => Matches(row, isoCode))
  }

  /** How the promise of `getTemperatureDataByISOCode` settles for a code and a CSV stream. */
  function TemperatureReport(isoCode: string, read: CsvRead): WeatherResult {
    if isoCode == "" then Rejected(InvalidCode)
    else if read.error.Some? then Rejected(ReadError(read.error.value))
    else
      var kept := KeptRows(read.rows, isoCode);
      if kept == [] then Resolved(NotFound(isoCode))
      else Resolved("Weatherdata for " + Field(kept[0], "Country") + ": " + Summary(SortBy(kept, MonthKey)))
  }

  /** `getTemperatureDataByISOCode`: the `data` callback collects the matching rows, `end`
      sorts and summarises them, `error` rejects. */
  method GetTemperatureDataByIsoCode(isoCode: string, read: CsvRead) returns (r: WeatherResult)
    ensures r == TemperatureReport(isoCode, read)
  {
    if isoCode == "" {
      return Rejected(InvalidCode);
    }
    if read.error.Some? {
      return Rejected(ReadError(read.error.value));
    }
    var weatherData: seq<CsvRow> := [];
    var index := 0;
    while index < |read.rows|
      invariant 0 <= index <= |read.rows|
      invariant weatherData == KeptRows(read.rows[..index], isoCode)
    {
      var row := read.rows[index];
      if "ISO3_Code" in row && row["ISO3_Code"] != "" {
        if Upper(row["ISO3_Code"]) == Upper(isoCode) {
          weatherData := weatherData + [row];
        }
      }
      assert read.rows[..index + 1][..index] == read.rows[..index];
      index := index + 1;
    }
    assert read.rows[..index] == read.rows;
    if |weatherData| == 0 {
      return Resolved(NotFound(isoCode));
    }
    var countryName := Field(weatherData[0], "Country");
    var rows := new CsvRow[|weatherData|](i requires 0 <= i < |weatherData| => weatherData[i]);
    assert rows[..] == weatherData;
    SortRowsBy(rows, MonthKey);
    r := Resolved("Weatherdata for " + countryName + ": " + Summary(rows[..]));
  }

  // ---------------------------------------------------------------------------
  // Properties of the report

  /** The promise rejects exactly for an empty code or a failing stream. */
  lemma RejectedIff(isoCode: string, read: CsvRead)
    ensures TemperatureReport(isoCode, read).Rejected? <==> isoCode == "" || read.error.Some?
    ensures isoCode == "" ==> TemperatureReport(isoCode, read).reason == InvalidCode
    ensures isoCode != "" && read.error.Some? ==>
      TemperatureReport(isoCode, read).reason == ReadError(read.error.value)
  {
  }

  /** A valid code without matching rows resolves to the sentinel text, not to an error. */
  lemma NotFoundIff(isoCode: string, read: CsvRead)
    requires isoCode != "" && read.error.None?
    ensures TemperatureReport(isoCode, read) == Resolved(NotFound(isoCode))
      <==> forall row :: row in read.rows ==> !Matches(row, isoCode)
  {
    var kept := KeptRows(read.rows, isoCode);
    if kept != [] {
      var text := TemperatureReport(isoCode, read).text;
      assert text[0] == 'W' && NotFound(isoCode)[0] == 'K';
      assert kept[0] in kept;
    }
  }

  /** A found report names the country of the first matching row in file order and lists
      every matching row exactly once, in calendar order, rows of one month in file order. */
  lemma FoundReportLayout(isoCode: string, read: CsvRead)
    requires isoCode != "" && read.error.None?
    requires exists row :: row in read.rows && Matches(row, isoCode)
    ensures var kept := KeptRows(read.rows, isoCode);
      var sorted := SortBy(kept, MonthKey);
      && kept != []
      && (forall row :: row in kept <==> row in read.rows && Matches(row, isoCode))
      && TemperatureReport(isoCode, read)
         == Resolved("Weatherdata for " + Field(kept[0], "Country") + ": " + Summary(sorted))
      && SortedBy(sorted, MonthKey)
      && multiset(sorted) == multiset(kept)
      && forall k :: WithKey(sorted, MonthKey, k) == WithKey(kept, MonthKey, k)
  {
    var kept := KeptRows(read.rows, isoCode);
    var row :| row in read.rows && Matches(row, isoCode);
    assert row in kept;
    SortBySortedPermutation(kept, MonthKey);
    forall k ensures WithKey(SortBy(kept, MonthKey), MonthKey, k) == WithKey(kept, MonthKey, k) {
      SortByStable(kept, MonthKey, k);
    }
  }

  /** Every month for which a matching row exists is named in the report; in particular a
      code with a row for each of the twelve months gets all twelve month names. */
  lemma EveryMonthReported(isoCode: string, read: CsvRead, month: string)
    requires isoCode != "" && read.error.None?
    requires exists row :: row in read.rows && Matches(row, isoCode) && Field(row, "Month") == month
    ensures TemperatureReport(isoCode, read).Resolved?
    ensures IsInfix(month, TemperatureReport(isoCode, read).text)
  {
    var kept := KeptRows(read.rows, isoCode);
    var row :| row in read.rows && Matches(row, isoCode) && Field(row, "Month") == month;
    assert row in kept;
    var sorted := SortBy(kept, MonthKey);
    SortByKeepsRows(kept, MonthKey, row);
    var i :| 0 <= i < |sorted| && sorted[i] == row;
    EveryRowInSummary(sorted, i);
    var header := "Weatherdata for " + Field(kept[0], "Country") + ": ";
    InfixOfConcat(month, header, Summary(sorted));
    assert TemperatureReport(isoCode, read) == Resolved(header + Summary(sorted));
  }

  /** The code is compared ignoring case: codes with the same upper-case form keep the same rows. */
  lemma {:induction false} MatchIgnoresCase(rows: seq<CsvRow>, code1: string, code2: string)
    requires Upper(code1) == Upper(code2)
    ensures KeptRows(rows, code1) == KeptRows(rows, code2)
    decreases |rows|
  {
    if rows != [] {
      MatchIgnoresCase(rows[..|rows| - 1], code1, code2);
    }
  }
}
