/** The snapshot job of the travel-advisory feed (server/api/fetch-AuswaertigsAmt.ts):
    every country id of the feed's content list is fetched, entries that are objects
    carrying all required keys are normalised, and the result is a dictionary keyed by
    each entry's ISO3 country code. The HTTP requests and the HTML-to-text conversion
    (JSDOM) are parameters. */
module Advisory {
  import opened Js

  /** The keys an entry must carry to be stored. */
  const RequiredKeys: seq<string> :=
    ["lastModified", "effective", "title", "countryCode", "iso3CountryCode", "countryName"]

  /** One normalised advisory record as written to the snapshot file. Copied fields may be
      `undefined` (`None`); the flags and the disclaimer are always defined. */
  datatype CountryRecord = CountryRecord(
    lastModified: Option<Json>,
    effective: Option<Json>,
    title: Option<Json>,
    countryCode: Option<Json>,
    iso3CountryCode: Option<Json>,
    countryName: Option<Json>,
    warning: Json,
    partialWarning: Json,
    situationWarning: Json,
    situationPartWarning: Json,
    lastChanges: Option<Json>,
    content: string,
    disclaimer: Json,
    originalId: Option<Json>)

  /** The property read `data[key]` on an entry. */
  function Field(data: map<string, Json>, key: string): Option<Json> {
    Member(JObj(data), key)
  }

  /** `keys.every(key => key in data)`. */
  function Every(keys: seq<string>, data: map<string, Json>): (r: bool)
    ensures r <==> forall i :: 0 <= i < |keys| ==> keys[i] in data
    decreases |keys|
  {
    if keys == [] then true else keys[0] in data && Every(keys[1..], data)
  }

  /** `isValidContent`: the entry carries every required key. */
  function IsValidContent(data: map<string, Json>): (r: bool)
    ensures r <==> forall k :: k in RequiredKeys ==> k in data
    ensures r ==> "iso3CountryCode" in data
  {
    assert RequiredKeys[4] == "iso3CountryCode";
    Every(RequiredKeys, data)
  }

  /** `out` is what `src || fallback` yields: a defined value with the truthiness of
      `src`, equal to `src` when that is truthy and to `fallback` otherwise. */
  ghost predicate Defaulted(out: Json, src: Option<Json>, fallback: Json) {
    && (Truthy(src) ==> Some(out) == src)
    && (!Truthy(src) ==> out == fallback)
  }

  /** `parseCountryData`: copy the descriptive fields, default the four warning flags to
      `false` and the disclaimer to `''`, and turn the HTML content into text (or `''`
      when there is none). */
  function ParseCountryData(data: map<string, Json>, htmlToText: Json -> string): (r: CountryRecord)
    ensures r.lastModified == Field(data, "lastModified") && r.effective == Field(data, "effective")
    ensures r.title == Field(data, "title") && r.countryCode == Field(data, "countryCode")
    ensures r.iso3CountryCode == Field(data, "iso3CountryCode")
    ensures r.countryName == Field(data, "countryName") && r.lastChanges == Field(data, "lastChanges")
    ensures Defaulted(r.warning, Field(data, "warning"), JBool(false))
    ensures Defaulted(r.partialWarning, Field(data, "partialWarning"), JBool(false))
    ensures Defaulted(r.situationWarning, Field(data, "situationWarning"), JBool(false))
    ensures Defaulted(r.situationPartWarning, Field(data, "situationPartWarning"), JBool(false))
    ensures Truthy(Some(r.warning)) == Truthy(Field(data, "warning"))
    ensures Defaulted(r.disclaimer, Field(data, "disclaimer"), JStr(""))
    ensures !Truthy(Field(data, "content")) ==> r.content == ""
    ensures Truthy(Field(data, "content")) ==> r.content == htmlToText(data["content"])
    ensures r.originalId.None?
  {
    var rawContent := Or(Field(data, "content"), JStr(""));
    var formattedContent := if Truthy(Some(rawContent)) then htmlToText(rawContent) else "";
    CountryRecord(
      lastModified := Field(data, "lastModified"),
      effective := Field(data, "effective"),
      title := Field(data, "title"),
      countryCode := Field(data, "countryCode"),
      iso3CountryCode := Field(data, "iso3CountryCode"),
      countryName := Field(data, "countryName"),
      warning := Or(Field(data, "warning"), JBool(false)),
      partialWarning := Or(Field(data, "partialWarning"), JBool(false)),
      situationWarning := Or(Field(data, "situationWarning"), JBool(false)),
      situationPartWarning := Or(Field(data, "situationPartWarning"), JBool(false)),
      lastChanges := Field(data, "lastChanges"),
      content := formattedContent,
      disclaimer := Or(Field(data, "disclaimer"), JStr("")),
      originalId := None)
  }

  /** What fetching one country id gives `processAllCountries`: the value found under
      `response[countryId]` of the reply (`None` when absent), or an exception. */
  datatype CountryFetch = Threw | Fetched(countryData: Option<Json>)

  /** The entry is stored: it is truthy, an object and passes `isValidContent`. An array is
      also an object to `typeof`, but it never carries the required keys. */
  predicate Accepted(f: CountryFetch) {
    f.Fetched? && f.countryData.Some? && f.countryData.value.JObj?
    && IsValidContent(f.countryData.value.fields)
  }

  /** The dictionary key of an accepted entry: its ISO3 code turned into a property key. */
  function KeyOf(f: CountryFetch): string
    requires Accepted(f)
  {
    ToString(f.countryData.value.fields["iso3CountryCode"])
  }

  /** The value stored for an accepted entry: the parsed record plus the list id it came from. */
  function StoredRecord(id: Json, f: CountryFetch, htmlToText: Json -> string): CountryRecord
    requires Accepted(f)
  {
    ParseCountryData(f.countryData.value.fields, htmlToText).(originalId := Some(id))
  }

  /** One iteration of the loop: store an accepted entry, skip anything else. */
  function StoreCountry(byIso: map<string, CountryRecord>, id: Json, fetch: Json -> CountryFetch,
                        htmlToText: Json -> string): map<string, CountryRecord>
  {
    if Accepted(fetch(id)) then byIso[KeyOf(fetch(id)) := StoredRecord(id, fetch(id), htmlToText)]
    else byIso
  }

  /** The dictionary after processing the ids in order. */
  function CollectCountries(ids: seq<Json>, fetch: Json -> CountryFetch, htmlToText: Json -> string)
    : map<string, CountryRecord>
    decreases |ids|
  {
    if ids == [] then map[]
    else StoreCountry(CollectCountries(ids[..|ids| - 1], fetch, htmlToText), ids[|ids| - 1], fetch, htmlToText)
  }

  /** Processing one more id of the list is one more iteration. */
  lemma CollectStep(ids: seq<Json>, i: nat, fetch: Json -> CountryFetch, htmlToText: Json -> string)
    requires i < |ids|
    ensures CollectCountries(ids[..i + 1], fetch, htmlToText)
         == StoreCountry(CollectCountries(ids[..i], fetch, htmlToText), ids[i], fetch, htmlToText)
  {
    assert ids[..i + 1][..i] == ids[..i];
  }

  /** `processAllCountries`, from the content list on: the loop fills `countryDataByIso`. */
  method ProcessAllCountries(contentList: seq<Json>, fetch: Json -> CountryFetch, htmlToText: Json -> string)
    returns (countryDataByIso: map<string, CountryRecord>)
    ensures countryDataByIso == CollectCountries(contentList, fetch, htmlToText)
  {
    countryDataByIso := map[];
    var index := 0;
    while index < |contentList|
      invariant 0 <= index <= |contentList|
      invariant countryDataByIso == CollectCountries(contentList[..index], fetch, htmlToText)
    {
      var countryId := contentList[index];
      ghost var before := countryDataByIso;
      var response := fetch(countryId);
      if response.Fetched? {
        var countryData := response.countryData;
        if countryData.Some? && countryData.value.JObj? && IsValidContent(countryData.value.fields) {
          var parsedData := ParseCountryData(countryData.value.fields, htmlToText);
          var iso3Code := countryData.value.fields["iso3CountryCode"];
          countryDataByIso := countryDataByIso[ToString(iso3Code) := parsedData.(originalId := Some(countryId))];
        }
      }
      // an exception is logged and the loop goes on with the next id
      assert countryDataByIso == StoreCountry(before, countryId, fetch, htmlToText);
      CollectStep(contentList, index, fetch, htmlToText);
      index := index + 1;
    }
    assert contentList[..index] == contentList;
  }

  /** Every stored value carries the ISO3 code it is stored under. */
  lemma {:induction false} CollectedKeysMatchIso(ids: seq<Json>, fetch: Json -> CountryFetch, htmlToText: Json -> string)
    ensures forall k :: k in CollectCountries(ids, fetch, htmlToText) ==>
      CollectCountries(ids, fetch, htmlToText)[k].iso3CountryCode.Some?
      && ToString(CollectCountries(ids, fetch, htmlToText)[k].iso3CountryCode.value) == k
    decreases |ids|
  {
    if ids != [] {
      CollectedKeysMatchIso(ids[..|ids| - 1], fetch, htmlToText);
    }
  }

  /** Every stored value remembers a list id it came from. */
  lemma {:induction false} CollectedIdsFromList(ids: seq<Json>, fetch: Json -> CountryFetch, htmlToText: Json -> string)
    ensures forall k :: k in CollectCountries(ids, fetch, htmlToText) ==>
      CollectCountries(ids, fetch, htmlToText)[k].originalId.Some?
      && CollectCountries(ids, fetch, htmlToText)[k].originalId.value in ids
    decreases |ids|
  {
    if ids != [] {
      var init := ids[..|ids| - 1];
      CollectedIdsFromList(init, fetch, htmlToText);
      forall k | k in CollectCountries(init, fetch, htmlToText)
        ensures CollectCountries(init, fetch, htmlToText)[k].originalId.value in ids
      {
        var id := CollectCountries(init, fetch, htmlToText)[k].originalId.value;
        var j :| 0 <= j < |init| && init[j] == id;
        assert ids[j] == id;
      }
    }
  }

  /** The entry fetched for an id is stored under key `k`. */
  predicate YieldsKey(f: CountryFetch, k: string) {
    Accepted(f) && KeyOf(f) == k
  }

  /** One iteration adds at most the key of the entry it stores. */
  lemma StoreCountryKeys(byIso: map<string, CountryRecord>, id: Json, fetch: Json -> CountryFetch,
                         htmlToText: Json -> string, k: string)
    ensures k in StoreCountry(byIso, id, fetch, htmlToText) <==> k in byIso || YieldsKey(fetch(id), k)
  {
  }

  /** A key is present exactly when some id of the list yielded an accepted entry with that
      ISO3 code. */
  lemma {:induction false} CollectedKeysExactly(ids: seq<Json>, fetch: Json -> CountryFetch,
                                              htmlToText: Json -> string, k: string)
    ensures k in CollectCountries(ids, fetch, htmlToText) <==>
      exists j :: 0 <= j < |ids| && YieldsKey(fetch(ids[j]), k)
    decreases |ids|
  {
    if ids != [] {
      var init, last := ids[..|ids| - 1], ids[|ids| - 1];
      CollectedKeysExactly(init, fetch, htmlToText, k);
      StoreCountryKeys(CollectCountries(init, fetch, htmlToText), last, fetch, htmlToText, k);
      if exists j :: 0 <= j < |init| && YieldsKey(fetch(init[j]), k) {
        var j :| 0 <= j < |init| && YieldsKey(fetch(init[j]), k);
        assert ids[j] == init[j];
      }
      if exists j :: 0 <= j < |ids| && YieldsKey(fetch(ids[j]), k) {
        var j :| 0 <= j < |ids| && YieldsKey(fetch(ids[j]), k);
        if j < |init| {
          assert init[j] == ids[j];
        }
      }
    }
  }

  /** When several ids yield the same ISO3 code `k`, the last of them wins. */
  lemma {:induction false} CollectedLastWins(ids: seq<Json>, fetch: Json -> CountryFetch,
                                           htmlToText: Json -> string, j: nat, k: string)
    requires j < |ids| && YieldsKey(fetch(ids[j]), k)
    requires forall i :: j < i < |ids| ==> !YieldsKey(fetch(ids[i]), k)
    ensures k in CollectCountries(ids, fetch, htmlToText)
    ensures CollectCountries(ids, fetch, htmlToText)[k] == StoredRecord(ids[j], fetch(ids[j]), htmlToText)
    decreases |ids|
  {
    var init := ids[..|ids| - 1];
    if j < |ids| - 1 {
      assert init[j] == ids[j];
      forall i | j < i < |init|
        ensures !YieldsKey(fetch(init[i]), k)
      {
        assert init[i] == ids[i];
      }
      CollectedLastWins(init, fetch, htmlToText, j, k);
    }
    CollectLookup(ids, fetch, htmlToText, k);
  }

  /** Looking a key up in the dictionary of a non-empty list: the last id's record if it yields
      the key, the value after the earlier ids otherwise. */
  lemma CollectLookup(ids: seq<Json>, fetch: Json -> CountryFetch, htmlToText: Json -> string, k: string)
    requires ids != []
    ensures var last := ids[|ids| - 1];
      YieldsKey(fetch(last), k) ==>
        k in CollectCountries(ids, fetch, htmlToText)
        && CollectCountries(ids, fetch, htmlToText)[k] == StoredRecord(last, fetch(last), htmlToText)
    ensures var before := CollectCountries(ids[..|ids| - 1], fetch, htmlToText);
      !YieldsKey(fetch(ids[|ids| - 1]), k) && k in before ==>
        k in CollectCountries(ids, fetch, htmlToText) && CollectCountries(ids, fetch, htmlToText)[k] == before[k]
  {
    var last := ids[|ids| - 1];
    var before := CollectCountries(ids[..|ids| - 1], fetch, htmlToText);
    StoreCountryLookup(before, last, fetch, htmlToText, k);
  }

  /** Looking a key up after one more id: that id's record if it yields the key, the earlier
      value otherwise. */
  lemma StoreCountryLookup(byIso: map<string, CountryRecord>, id: Json, fetch: Json -> CountryFetch,
                           htmlToText: Json -> string, k: string)
    ensures YieldsKey(fetch(id), k) ==>
              k in StoreCountry(byIso, id, fetch, htmlToText)
              && StoreCountry(byIso, id, fetch, htmlToText)[k] == StoredRecord(id, fetch(id), htmlToText)
    ensures !YieldsKey(fetch(id), k) && k in byIso ==>
              k in StoreCountry(byIso, id, fetch, htmlToText)
              && StoreCountry(byIso, id, fetch, htmlToText)[k] == byIso[k]
  {
  }

  /** An id whose fetch fails (or whose entry is not accepted) leaves the result as if it were
      not in the list: the ids after it are processed all the same. */
  lemma {:induction false} RejectedIdSkipped(xs: seq<Json>, x: Json, ys: seq<Json>,
                                           fetch: Json -> CountryFetch, htmlToText: Json -> string)
    requires !Accepted(fetch(x))
    ensures CollectCountries(xs + [x] + ys, fetch, htmlToText) == CollectCountries(xs + ys, fetch, htmlToText)
    decreases |ys|
  {
    if ys == [] {
      assert (xs + [x] + ys)[..|xs + [x] + ys| - 1] == xs;
      assert xs + ys == xs;
    } else {
      var ys' := ys[..|ys| - 1];
      assert (xs + [x] + ys)[..|xs + [x] + ys| - 1] == xs + [x] + ys';
      assert (xs + ys)[..|xs + ys| - 1] == xs + ys';
      RejectedIdSkipped(xs, x, ys', fetch, htmlToText);
    }
  }
}
