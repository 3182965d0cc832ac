/** The vector-store side of the application (utils/pineconeHandler.ts): the token-window
    chunker, the ingestion loops that store one vector per chunk, the metadata filter and
    the result shaping of a similarity query, and the content lookup in the advisory
    snapshot. The tokenizer, the embedding service and the index service are parameters. */
module Pinecone {
  import opened Js
  import opened Advisory

  /** The GPT-3 tokenizer: `encode` and `decode`. */
  datatype Tokenizer = Tokenizer(encode: string -> seq<int>, decode: seq<int> -> string)

  /** One chunk as `splitTextIntoChunks` returns it. */
  datatype Chunk = Chunk(text: string, tokens: seq<int>)

  function Min(a: int, b: int): int {
    if a < b then a else b
  }

  // ---------------------------------------------------------------------------
  // splitTextIntoChunks

  /** The chunk whose window starts at token index `start`. */
  function ChunkAt(tokens: seq<int>, start: nat, maxTokens: nat, countryName: string,
                   decode: seq<int> -> string): (c: Chunk)
    requires start < |tokens|
    ensures |c.tokens| <= maxTokens && start + |c.tokens| <= |tokens|
    ensures c.tokens == tokens[start..start + |c.tokens|]
    ensures |c.tokens| == maxTokens || start + |c.tokens| == |tokens|
    ensures c.text == countryName + ": " + decode(c.tokens)
  {
    var chunkTokens := tokens[start..Min(start + maxTokens, |tokens|)];
    Chunk(countryName + ": " + decode(chunkTokens), chunkTokens)
  }

  /** The distance between two window starts, `maxTokens - overlap`. */
  function Stride(maxTokens: nat, overlap: int): nat
    requires overlap < maxTokens
  {
    maxTokens - overlap
  }

  /** The offset of window k from the first one: k strides. */
  function WindowStart(k: nat, step: nat): nat {
    if k == 0 then 0 else WindowStart(k - 1, step) + step
  }

  lemma {:induction false} WindowStartIsMultiple(k: nat, step: nat)
    ensures WindowStart(k, step) == k * step
  {
    if k > 0 {
      WindowStartIsMultiple(k - 1, step);
    }
  }

  /** The chunks whose windows start at `start`, `start + step`, ... while inside the tokens. */
  function ChunksFrom(tokens: seq<int>, start: nat, maxTokens: nat, overlap: int, countryName: string,
                      decode: seq<int> -> string): seq<Chunk>
    requires overlap < maxTokens
    decreases |tokens| - start
  {
    if start < |tokens| then
      [ChunkAt(tokens, start, maxTokens, countryName, decode)]
      + ChunksFrom(tokens, start + Stride(maxTokens, overlap), maxTokens, overlap, countryName, decode)
    else []
  }

  /** The chunks of a whole token list; an empty list has none, whatever the window. */
  function ChunksOf(tokens: seq<int>, maxTokens: nat, overlap: int, countryName: string,
                    decode: seq<int> -> string): seq<Chunk>
    requires tokens == [] || overlap < maxTokens
  {
    if tokens == [] then [] else ChunksFrom(tokens, 0, maxTokens, overlap, countryName, decode)
  }

  /** There are just enough chunks from `start` for the last window to begin inside the
      tokens and the next one beyond them. */
  lemma {:induction false} ChunksFromCount(tokens: seq<int>, start: nat, maxTokens: nat, overlap: int,
                                         countryName: string, decode: seq<int> -> string)
    requires overlap < maxTokens
    ensures var n := |ChunksFrom(tokens, start, maxTokens, overlap, countryName, decode)|;
      var step := Stride(maxTokens, overlap);
      && (n == 0 <==> |tokens| <= start)
      && (n != 0 ==> start + WindowStart(n - 1, step) < |tokens|)
      && |tokens| <= start + WindowStart(n, step)
    decreases |tokens| - start
  {
    var step := Stride(maxTokens, overlap);
    if start < |tokens| {
      var next := start + step;
      ChunksFromCount(tokens, next, maxTokens, overlap, countryName, decode);
      var n := |ChunksFrom(tokens, start, maxTokens, overlap, countryName, decode)|;
      var m := |ChunksFrom(tokens, next, maxTokens, overlap, countryName, decode)|;
      assert n == m + 1;
      assert WindowStart(n, step) == WindowStart(m, step) + step;
      if m != 0 {
        assert WindowStart(n - 1, step) == WindowStart(m - 1, step) + step;
      }
    }
  }

  /** Chunk k of the windows from `start` is the window that begins k strides after `start`. */
  lemma {:induction false} ChunksFromElement(tokens: seq<int>, start: nat, maxTokens: nat, overlap: int,
                                           countryName: string, decode: seq<int> -> string, k: nat)
    requires overlap < maxTokens
    requires k < |ChunksFrom(tokens, start, maxTokens, overlap, countryName, decode)|
    ensures start + WindowStart(k, Stride(maxTokens, overlap)) < |tokens|
    ensures ChunksFrom(tokens, start, maxTokens, overlap, countryName, decode)[k]
         == ChunkAt(tokens, start + WindowStart(k, Stride(maxTokens, overlap)), maxTokens, countryName, decode)
    decreases k
  {
    if k > 0 {
      var step := Stride(maxTokens, overlap);
      var next := start + step;
      ChunksFromElement(tokens, next, maxTokens, overlap, countryName, decode, k - 1);
      assert ChunksFrom(tokens, start, maxTokens, overlap, countryName, decode)[k]
          == ChunksFrom(tokens, next, maxTokens, overlap, countryName, decode)[k - 1];
    }
  }

  /** `splitTextIntoChunks`: walk the token list in windows of `maxTokens` tokens, advancing by
      `maxTokens - overlap`; each chunk's text is the country name, `": "` and the decoded
      window. The loop only ends when the stride is positive, unless there are no tokens. */
  method SplitTextIntoChunks(text: string, maxTokens: nat, overlap: int, countryName: string, tok: Tokenizer)
    returns (chunks: seq<Chunk>)
    requires tok.encode(text) == [] || overlap < maxTokens
    ensures chunks == ChunksOf(tok.encode(text), maxTokens, overlap, countryName, tok.decode)
    ensures chunks == [] <==> tok.encode(text) == []
    ensures chunks != [] ==> forall k :: 0 <= k < |chunks| ==>
      WindowStart(k, Stride(maxTokens, overlap)) < |tok.encode(text)|
      && chunks[k] == ChunkAt(tok.encode(text), WindowStart(k, Stride(maxTokens, overlap)), maxTokens,
                              countryName, tok.decode)
  {
    var tokens := tok.encode(text);
    chunks := [];
    var start: nat := 0;
    while start < |tokens|
      invariant tokens != [] ==>
        chunks + ChunksFrom(tokens, start, maxTokens, overlap, countryName, tok.decode)
        == ChunksFrom(tokens, 0, maxTokens, overlap, countryName, tok.decode)
      invariant tokens == [] ==> chunks == []
      decreases |tokens| - start
    {
      var end := Min(start + maxTokens, |tokens|);
      var chunkTokens := tokens[start..end];
      var chunkText := countryName + ": " + tok.decode(chunkTokens);
      chunks := chunks + [Chunk(chunkText, chunkTokens)];
      start := start + (maxTokens - overlap);
    }
    if tokens != [] {
      ChunksFromCount(tokens, 0, maxTokens, overlap, countryName, tok.decode);
      forall k | 0 <= k < |chunks|
        ensures WindowStart(k, Stride(maxTokens, overlap)) < |tokens|
        ensures chunks[k] == ChunkAt(tokens, WindowStart(k, Stride(maxTokens, overlap)), maxTokens,
                                     countryName, tok.decode)
      {
        ChunksFromElement(tokens, 0, maxTokens, overlap, countryName, tok.decode, k);
      }
    }
  }

  /** The tokens chunk k carries after the stride are the first tokens of chunk k + 1; when
      chunk k is a full window, exactly `overlap` tokens are shared. */
  lemma ConsecutiveChunksOverlap(tokens: seq<int>, maxTokens: nat, overlap: int, countryName: string,
                                 decode: seq<int> -> string, k: nat)
    requires 0 <= overlap < maxTokens
    requires k + 1 < |ChunksOf(tokens, maxTokens, overlap, countryName, decode)|
    ensures var cs := ChunksOf(tokens, maxTokens, overlap, countryName, decode);
      var step := Stride(maxTokens, overlap);
      && step <= |cs[k].tokens| <= |cs[k + 1].tokens| + step
      && cs[k].tokens[step..] == cs[k + 1].tokens[..|cs[k].tokens| - step]
      && (|cs[k].tokens| == maxTokens ==> |cs[k].tokens| - step == overlap)
  {
    var step := Stride(maxTokens, overlap);
    var s := WindowStart(k, step);
    ConsecutiveWindows(tokens, maxTokens, overlap, countryName, decode, k);
    WindowsOverlap(tokens, s, step, maxTokens, countryName, decode);
  }

  /** Chunks k and k + 1 are the windows at k and k + 1 strides from the first token. */
  lemma ConsecutiveWindows(tokens: seq<int>, maxTokens: nat, overlap: int, countryName: string,
                           decode: seq<int> -> string, k: nat)
    requires 0 <= overlap < maxTokens
    requires k + 1 < |ChunksOf(tokens, maxTokens, overlap, countryName, decode)|
    ensures var cs := ChunksOf(tokens, maxTokens, overlap, countryName, decode);
      var step := Stride(maxTokens, overlap);
      var s := WindowStart(k, step);
      && s + step < |tokens|
      && cs[k] == ChunkAt(tokens, s, maxTokens, countryName, decode)
      && cs[k + 1] == ChunkAt(tokens, s + step, maxTokens, countryName, decode)
  {
    var step := Stride(maxTokens, overlap);
    assert tokens != [];
    ChunksFromElement(tokens, 0, maxTokens, overlap, countryName, decode, k);
    ChunksFromElement(tokens, 0, maxTokens, overlap, countryName, decode, k + 1);
    assert WindowStart(k + 1, step) == WindowStart(k, step) + step;
  }

  /** Two windows `step` apart, `0 < step <= maxTokens`: the first one's tokens after the
      step begin the second one. */
  lemma WindowsOverlap(tokens: seq<int>, s: nat, step: nat, maxTokens: nat, countryName: string,
                       decode: seq<int> -> string)
    requires 0 < step <= maxTokens && s + step < |tokens|
    ensures var a := ChunkAt(tokens, s, maxTokens, countryName, decode).tokens;
      var b := ChunkAt(tokens, s + step, maxTokens, countryName, decode).tokens;
      && step <= |a| <= |b| + step
      && a[step..] == b[..|a| - step]
  {
    var a := ChunkAt(tokens, s, maxTokens, countryName, decode).tokens;
    var b := ChunkAt(tokens, s + step, maxTokens, countryName, decode).tokens;
    assert |a| - step <= |b|;
    forall i | 0 <= i < |a| - step ensures a[step..][i] == b[i] {
      assert a[step..][i] == tokens[s + step + i] == b[i];
    }
  }

  /** With a non-negative overlap the chunks leave no gap: every token lies in some chunk. */
  lemma ChunksCoverEveryToken(tokens: seq<int>, maxTokens: nat, overlap: int, countryName: string,
                              decode: seq<int> -> string, i: nat)
    requires 0 <= overlap < maxTokens
    requires i < |tokens|
    ensures var cs := ChunksOf(tokens, maxTokens, overlap, countryName, decode);
      var step := Stride(maxTokens, overlap);
      exists k :: 0 <= k < |cs| && WindowStart(k, step) <= i < WindowStart(k, step) + |cs[k].tokens|
  {
    CoveredFrom(tokens, 0, maxTokens, overlap, countryName, decode, i);
  }

  lemma {:induction false} CoveredFrom(tokens: seq<int>, start: nat, maxTokens: nat, overlap: int,
                                     countryName: string, decode: seq<int> -> string, i: nat)
    requires 0 <= overlap < maxTokens
    requires start <= i < |tokens|
    ensures var cs := ChunksFrom(tokens, start, maxTokens, overlap, countryName, decode);
      var step := Stride(maxTokens, overlap);
      exists k :: 0 <= k < |cs|
        && start + WindowStart(k, step) <= i < start + WindowStart(k, step) + |cs[k].tokens|
    decreases |tokens| - start
  {
    var step := Stride(maxTokens, overlap);
    var cs := ChunksFrom(tokens, start, maxTokens, overlap, countryName, decode);
    var first := ChunkAt(tokens, start, maxTokens, countryName, decode);
    assert cs[0] == first;
    if i < start + |first.tokens| {
      assert start + WindowStart(0, step) <= i < start + WindowStart(0, step) + |cs[0].tokens|;
    } else {
      var next := start + step;
      CoveredFrom(tokens, next, maxTokens, overlap, countryName, decode, i);
      var ds := ChunksFrom(tokens, next, maxTokens, overlap, countryName, decode);
      var k :| 0 <= k < |ds| && next + WindowStart(k, step) <= i < next + WindowStart(k, step) + |ds[k].tokens|;
      assert cs[k + 1] == ds[k];
      assert start + WindowStart(k + 1, step) == next + WindowStart(k, step);
    }
  }

  /** With a non-negative overlap the last chunk ends exactly at the last token. */
  lemma LastChunkEndsAtEnd(tokens: seq<int>, maxTokens: nat, overlap: int, countryName: string,
                           decode: seq<int> -> string)
    requires 0 <= overlap < maxTokens
    requires tokens != []
    ensures var cs := ChunksOf(tokens, maxTokens, overlap, countryName, decode);
      cs != [] && WindowStart(|cs| - 1, Stride(maxTokens, overlap)) + |cs[|cs| - 1].tokens| == |tokens|
  {
    var step := Stride(maxTokens, overlap);
    ChunksFromCount(tokens, 0, maxTokens, overlap, countryName, decode);
    var cs := ChunksOf(tokens, maxTokens, overlap, countryName, decode);
    var s := WindowStart(|cs| - 1, step);
    assert WindowStart(|cs|, step) == s + step;
    ChunksFromElement(tokens, 0, maxTokens, overlap, countryName, decode, |cs| - 1);
  }

  /** With the ingestion settings (5000-token windows, 1000 tokens of overlap) a text of
      exactly 5000 tokens gives two chunks, the second holding only the last 1000 tokens of
      the first. */
  lemma FullWindowGivesContainedTail(tokens: seq<int>, countryName: string, decode: seq<int> -> string)
    requires |tokens| == 5000
    ensures var cs := ChunksOf(tokens, 5000, 1000, countryName, decode);
      |cs| == 2 && cs[1].tokens == cs[0].tokens[4000..]
  {
    var cs := ChunksOf(tokens, 5000, 1000, countryName, decode);
    var c0 := ChunkAt(tokens, 0, 5000, countryName, decode);
    var c1 := ChunkAt(tokens, 4000, 5000, countryName, decode);
    assert ChunksFrom(tokens, 8000, 5000, 1000, countryName, decode) == [];
    assert ChunksFrom(tokens, 4000, 5000, 1000, countryName, decode) == [c1];
    assert cs == [c0, c1];
  }

  // ---------------------------------------------------------------------------
  // processAndStoreData: vector ids and chunk metadata

  /** The id of chunk `i` of a country: `${iso3Code}_chunk_${i}`. */
  function VectorId(iso3Code: string, i: nat): string {
    iso3Code + "_chunk_" + NatToString(i)
  }

  /** Two chunks of one country never share an id. */
  lemma VectorIdsDistinct(iso3Code: string, i: nat, j: nat)
    requires i != j
    ensures VectorId(iso3Code, i) != VectorId(iso3Code, j)
  {
    var prefix := iso3Code + "_chunk_";
    if VectorId(iso3Code, i) == VectorId(iso3Code, j) {
      assert NatToString(i) == VectorId(iso3Code, i)[|prefix|..];
      assert NatToString(j) == VectorId(iso3Code, j)[|prefix|..];
      NatToStringInjective(i, j);
    }
  }

  /** The metadata stored with chunk `i` of a country that has `totalChunks` chunks; the
      country name is left out when the record has none (it is `undefined`). */
  function ChunkMetadata(country: CountryRecord, iso3Code: string, chunk: Chunk, i: nat, totalChunks: nat)
    : map<string, Json>
  {
    (if country.countryName.Some? then map["countryName" := country.countryName.value] else map[])
    + map[
      "iso3CountryCode" := JStr(iso3Code),
      "warning" := country.warning,
      "content" := JStr(chunk.text),
      "chunkIndex" := JNum(i),
      "totalChunks" := JNum(totalChunks)]
  }

  /** One stored vector: the embedding of the chunk text and its metadata. */
  datatype VectorRecord = VectorRecord(values: seq<real>, metadata: map<string, Json>)

  /** The text a country is chunked from: `${countryName}: ${content}`. */
  function CountryText(country: CountryRecord): string {
    Interpolate(country.countryName) + ": " + country.content
  }

  const IngestMaxTokens: nat := 5000
  const IngestOverlap: int := 1000

  /** The chunks ingestion makes of a country. */
  function CountryChunks(country: CountryRecord, tok: Tokenizer): seq<Chunk> {
    ChunksOf(tok.encode(CountryText(country)), IngestMaxTokens, IngestOverlap,
             Interpolate(country.countryName), tok.decode)
  }

  /** The index after the first `n` chunks of one country went through the inner loop: a chunk
      whose embedding or upsert fails is skipped. */
  function StoreChunks(vectors: map<string, VectorRecord>, iso3Code: string, country: CountryRecord,
                       chunks: seq<Chunk>, n: nat, embed: string -> Option<seq<real>>,
                       upsertOk: string -> bool): map<string, VectorRecord>
    requires n <= |chunks|
    decreases n
  {
    if n == 0 then vectors
    else
      var before := StoreChunks(vectors, iso3Code, country, chunks, n - 1, embed, upsertOk);
      var id := VectorId(iso3Code, n - 1);
      var embedding := embed(chunks[n - 1].text);
      if embedding.Some? && upsertOk(id) then
        before[id := VectorRecord(embedding.value, ChunkMetadata(country, iso3Code, chunks[n - 1], n - 1, |chunks|))]
      else before
  }

  /** The index after the first `n` snapshot entries went through the outer loop. */
  function StoreCountries(vectors: map<string, VectorRecord>, countries: seq<(string, CountryRecord)>, n: nat,
                          tok: Tokenizer, embed: string -> Option<seq<real>>, upsertOk: string -> bool)
    : map<string, VectorRecord>
    requires n <= |countries|
    decreases n
  {
    if n == 0 then vectors
    else
      StoreCountry(StoreCountries(vectors, countries, n - 1, tok, embed, upsertOk),
                   countries[n - 1].0, countries[n - 1].1, tok, embed, upsertOk)
  }

  /** The index after all chunks of one snapshot entry went through the inner loop. */
  function StoreCountry(vectors: map<string, VectorRecord>, iso3Code: string, country: CountryRecord,
                        tok: Tokenizer, embed: string -> Option<seq<real>>, upsertOk: string -> bool)
    : map<string, VectorRecord>
  {
    var chunks := CountryChunks(country, tok);
    StoreChunks(vectors, iso3Code, country, chunks, |chunks|, embed, upsertOk)
  }

  /** Every chunk whose embedding and upsert succeed is in the index under its own id, with
      `chunkIndex` its position and `totalChunks` the country's chunk count: no later chunk
      of the same country overwrites it. */
  lemma {:induction false} StoredChunkLayout(vectors: map<string, VectorRecord>, iso3Code: string,
                                           country: CountryRecord, chunks: seq<Chunk>, n: nat,
                                           embed: string -> Option<seq<real>>, upsertOk: string -> bool, i: nat)
    requires i < n <= |chunks|
    requires embed(chunks[i].text).Some? && upsertOk(VectorId(iso3Code, i))
    ensures var stored := StoreChunks(vectors, iso3Code, country, chunks, n, embed, upsertOk);
      && VectorId(iso3Code, i) in stored
      && stored[VectorId(iso3Code, i)]
         == VectorRecord(embed(chunks[i].text).value, ChunkMetadata(country, iso3Code, chunks[i], i, |chunks|))
    decreases n
  {
    if i < n - 1 {
      StoredChunkLayout(vectors, iso3Code, country, chunks, n - 1, embed, upsertOk, i);
      VectorIdsDistinct(iso3Code, i, n - 1);
    }
  }

  /** The inner loop writes only chunk ids of this country. */
  lemma {:induction false} StoredChunkIdsOnly(vectors: map<string, VectorRecord>, iso3Code: string,
                                            country: CountryRecord, chunks: seq<Chunk>, n: nat,
                                            embed: string -> Option<seq<real>>, upsertOk: string -> bool, id: string)
    requires n <= |chunks|
    requires id in StoreChunks(vectors, iso3Code, country, chunks, n, embed, upsertOk)
    requires id !in vectors
    ensures exists i :: 0 <= i < n && id == VectorId(iso3Code, i)
    decreases n
  {
    if id != VectorId(iso3Code, n - 1) {
      StoredChunkIdsOnly(vectors, iso3Code, country, chunks, n - 1, embed, upsertOk, id);
    }
  }

  /** The Pinecone index: a map from vector id to stored vector. */
  class VectorIndex {
    var vectors: map<string, VectorRecord>

    constructor (initial: map<string, VectorRecord>)
      ensures vectors == initial
    {
      vectors := initial;
    }

    /** `upsert` of one vector; `accepted` is whether the service call succeeded. */
    method Upsert(id: string, rec: VectorRecord, accepted: bool)
      modifies this
      ensures vectors == if accepted then old(vectors)[id := rec] else old(vectors)
    {
      if accepted {
        vectors := vectors[id := rec];
      }
    }
  }

  /** The inner loop of `processAndStoreData`: embed every chunk of one entry and upsert it
      under `${iso3Code}_chunk_${i}` with its metadata; a failing chunk is logged and skipped. */
  method StoreCountryChunks(index: VectorIndex, iso3Code: string, country: CountryRecord, countryChunks: seq<Chunk>,
                            embed: string -> Option<seq<real>>, upsertOk: string -> bool)
    modifies index
    ensures index.vectors == StoreChunks(old(index.vectors), iso3Code, country, countryChunks, |countryChunks|, embed, upsertOk)
  {
    var totalChunks := |countryChunks|;
    var i := 0;
    while i < |countryChunks|
      invariant 0 <= i <= |countryChunks|
      invariant index.vectors == StoreChunks(old(index.vectors), iso3Code, country, countryChunks, i, embed, upsertOk)
    {
      var chunk := countryChunks[i];
      var embedding := embed(chunk.text);
      if embedding.Some? {
        var id := VectorId(iso3Code, i);
        var metadata := ChunkMetadata(country, iso3Code, chunk, i, totalChunks);
        index.Upsert(id, VectorRecord(embedding.value, metadata), upsertOk(id));
      }
      i := i + 1;
    }
  }

  /** `processAndStoreData` after the index check: for every snapshot entry, chunk
      `${countryName}: ${content}` with 5000-token windows and 1000 tokens of overlap and
      store its chunks. */
  method ProcessAndStoreData(index: VectorIndex, countries: seq<(string, CountryRecord)>, tok: Tokenizer,
                             embed: string -> Option<seq<real>>, upsertOk: string -> bool)
    modifies index
    ensures index.vectors == StoreCountries(old(index.vectors), countries, |countries|, tok, embed, upsertOk)
  {
    var countryIndex := 0;
    while countryIndex < |countries|
      invariant 0 <= countryIndex <= |countries|
      invariant index.vectors == StoreCountries(old(index.vectors), countries, countryIndex, tok, embed, upsertOk)
    {
      var (iso3Code, country) := countries[countryIndex];
      ghost var before := index.vectors;
      IngestCountry(index, iso3Code, country, tok, embed, upsertOk);
      StoreCountriesStep(old(index.vectors), countries, countryIndex, tok, embed, upsertOk);
      assert index.vectors == StoreCountry(before, iso3Code, country, tok, embed, upsertOk);
      countryIndex := countryIndex + 1;
    }
  }

  /** One more entry through the outer loop. */
  lemma StoreCountriesStep(vectors: map<string, VectorRecord>, countries: seq<(string, CountryRecord)>, n: nat,
                           tok: Tokenizer, embed: string -> Option<seq<real>>, upsertOk: string -> bool)
    requires n < |countries|
    ensures StoreCountries(vectors, countries, n + 1, tok, embed, upsertOk)
            == StoreCountry(StoreCountries(vectors, countries, n, tok, embed, upsertOk),
                            countries[n].0, countries[n].1, tok, embed, upsertOk)
  {
  }

  /** One pass of the outer loop: chunk the entry's text and store its chunks. */
  method IngestCountry(index: VectorIndex, iso3Code: string, country: CountryRecord, tok: Tokenizer,
                       embed: string -> Option<seq<real>>, upsertOk: string -> bool)
    modifies index
    ensures index.vectors == StoreCountry(old(index.vectors), iso3Code, country, tok, embed, upsertOk)
  {
    var countryText := Interpolate(country.countryName) + ": " + country.content;
    var countryChunks := SplitTextIntoChunks(countryText, IngestMaxTokens, IngestOverlap,
                                             Interpolate(country.countryName), tok);
    assert countryChunks == CountryChunks(country, tok);
    StoreCountryChunks(index, iso3Code, country, countryChunks, embed, upsertOk);
  }

  // ---------------------------------------------------------------------------
  // queryPineconeData

  /** The optional filter arguments of a query. */
  datatype FilterOptions = FilterOptions(countryName: Option<string>, iso3CountryCode: Option<string>,
                                         warning: Option<bool>)

  datatype FilterValue = FStr(s: string) | FBool(b: bool)

  /** A string option is "given": defined and non-empty (truthy). */
  predicate Given(s: Option<string>) {
    s.Some? && s.value != ""
  }

  /** `filter` is the metadata filter for `opts`: `countryName` and `iso3CountryCode` only when
      given and non-empty, `warning` whenever it is defined (also when `false`), nothing else;
      and an empty filter is sent as `undefined`. */
  ghost predicate IsFilterFor(opts: Option<FilterOptions>, filter: Option<map<string, FilterValue>>) {
    var o := opts.GetOr(FilterOptions(None, None, None));
    && (filter.None? <==> !Given(o.countryName) && !Given(o.iso3CountryCode) && o.warning.None?)
    && (filter.Some? ==>
         var f := filter.value;
         && (forall key :: key in f ==> key in {"countryName", "iso3CountryCode", "warning"})
         && ("countryName" in f <==> Given(o.countryName))
         && ("countryName" in f ==> f["countryName"] == FStr(o.countryName.value))
         && ("iso3CountryCode" in f <==> Given(o.iso3CountryCode))
         && ("iso3CountryCode" in f ==> f["iso3CountryCode"] == FStr(o.iso3CountryCode.value))
         && ("warning" in f <==> o.warning.Some?)
         && ("warning" in f ==> f["warning"] == FBool(o.warning.value)))
  }

  /** The specification of the filter leaves no choice. */
  lemma FilterIsDetermined(opts: Option<FilterOptions>, f1: Option<map<string, FilterValue>>,
                           f2: Option<map<string, FilterValue>>)
    requires IsFilterFor(opts, f1) && IsFilterFor(opts, f2)
    ensures f1 == f2
  {
    if f1.Some? {
      var a, b := f1.value, f2.value;
      forall key ensures key in a <==> key in b {
        if key in a || key in b {
          assert key == "countryName" || key == "iso3CountryCode" || key == "warning";
        }
      }
      forall key | key in a ensures a[key] == b[key] {
        assert key == "countryName" || key == "iso3CountryCode" || key == "warning";
      }
      assert a == b;
    }
  }

  /** The filter construction of `queryPineconeData`, which fills the record key by key. */
  method BuildFilter(filterOptions: Option<FilterOptions>) returns (filter: Option<map<string, FilterValue>>)
    ensures IsFilterFor(filterOptions, filter)
  {
    var f: map<string, FilterValue> := map[];
    if filterOptions.Some? {
      var opts := filterOptions.value;
      if Given(opts.countryName) {
        f := f["countryName" := FStr(opts.countryName.value)];
      }
      if Given(opts.iso3CountryCode) {
        f := f["iso3CountryCode" := FStr(opts.iso3CountryCode.value)];
      }
      if opts.warning.Some? {
        f := f["warning" := FBool(opts.warning.value)];
      }
    }
    filter := if |f| > 0 then Some(f) else None;
  }

  /** One match as the index service returns it. */
  datatype RawMatch = RawMatch(id: string, score: Option<real>, metadata: Option<map<string, Json>>)

  /** One entry of `results`: the metadata fields read with `match.metadata?.field`. */
  datatype ResultMatch = ResultMatch(
    score: Option<real>,
    countryName: Option<Json>,
    iso3CountryCode: Option<Json>,
    warning: Option<Json>,
    content: Option<Json>,
    chunkIndex: Option<Json>,
    totalChunks: Option<Json>,
    id: string)

  /** `match.metadata?.[key]`. */
  function MetadataField(m: RawMatch, key: string): (r: Option<Json>)
    ensures r.Some? <==> m.metadata.Some? && key in m.metadata.value
    ensures r.Some? ==> r.value == m.metadata.value[key]
  {
    if m.metadata.Some? then Member(JObj(m.metadata.value), key) else None
  }

  function ToResultMatch(m: RawMatch): ResultMatch {
    ResultMatch(m.score, MetadataField(m, "countryName"), MetadataField(m, "iso3CountryCode"),
                MetadataField(m, "warning"), MetadataField(m, "content"), MetadataField(m, "chunkIndex"),
                MetadataField(m, "totalChunks"), m.id)
  }

  /** A match of a vector stored by ingestion reads back the chunk's own layout. */
  lemma StoredChunkReadsBack(country: CountryRecord, iso3Code: string, chunk: Chunk, i: nat, totalChunks: nat,
                             score: Option<real>)
    ensures var r := ToResultMatch(RawMatch(VectorId(iso3Code, i), score,
                                            Some(ChunkMetadata(country, iso3Code, chunk, i, totalChunks))));
      && r.id == VectorId(iso3Code, i) && r.score == score
      && r.iso3CountryCode == Some(JStr(iso3Code)) && r.countryName == country.countryName
      && r.warning == Some(country.warning) && r.content == Some(JStr(chunk.text))
      && r.chunkIndex == Some(JNum(i)) && r.totalChunks == Some(JNum(totalChunks))
  {
  }

  /** What the query step yields: the service's matches, or the message of the exception
      raised by the embedding call or the query. */
  datatype SearchOutcome = Matches(matches: seq<RawMatch>) | SearchFailed(message: string)

  datatype QueryResponse = QueryResponse(success: bool, error: Option<string>, results: seq<ResultMatch>,
                                         totalResults: nat)

  /** The value `queryPineconeData` returns for an outcome: the mapped matches in the service's
      order, or the error shape with no results. */
  function ShapeResponse(outcome: SearchOutcome): (r: QueryResponse)
    ensures r.totalResults == |r.results|
    ensures r.success <==> outcome.Matches?
    ensures r.error.None? <==> r.success
    ensures outcome.Matches? ==> (
      && |r.results| == |outcome.matches|
      && forall i :: 0 <= i < |r.results| ==>
           r.results[i] == ToResultMatch(outcome.matches[i]) && r.results[i].id == outcome.matches[i].id)
    ensures outcome.SearchFailed? ==>
      r.results == [] && r.error == Some("Fehler bei der Datenbankabfrage: " + outcome.message)
  {
    match outcome
    case Matches(ms) =>
      var results := seq(|ms|, i requires 0 <= i < |ms| => ToResultMatch(ms[i]));
      QueryResponse(true, None, results, |results|)
    case SearchFailed(message) =>
      QueryResponse(false, Some("Fehler bei der Datenbankabfrage: " + message), [], 0)
  }

  /** The request sent to the index service. */
  datatype QueryRequest = QueryRequest(vector: seq<real>, topK: int, includeMetadata: bool,
                                       filter: Option<map<string, FilterValue>>)

  /** `queryPineconeData`: embed the query text, build the filter, query the index and shape
      the answer; any exception becomes the error shape. */
  method QueryPineconeData(queryText: string, topK: int, filterOptions: Option<FilterOptions>,
                           embed: string -> Result<seq<real>>, search: QueryRequest -> SearchOutcome)
    returns (r: QueryResponse)
    ensures embed(queryText).Failure? ==> r == ShapeResponse(SearchFailed(embed(queryText).message))
    ensures embed(queryText).Success? ==> exists filter ::
      IsFilterFor(filterOptions, filter)
      && r == ShapeResponse(search(QueryRequest(embed(queryText).value, topK, true, filter)))
  {
    var queryEmbedding := embed(queryText);
    if queryEmbedding.Failure? {
      return ShapeResponse(SearchFailed(queryEmbedding.message));
    }
    var filter := BuildFilter(filterOptions);
    var outcome := search(QueryRequest(queryEmbedding.value, topK, true, filter));
    r := ShapeResponse(outcome);
  }

  /** The outcome of a call that yields a value or throws with a message. */
  datatype Result<T> = Success(value: T) | Failure(message: string)

  // ---------------------------------------------------------------------------
  // getFullContentFromJson

  /** `getFullContentFromJson`: the snapshot record's content when the record exists and its
      content is non-empty, otherwise `null` (`None`). */
  function GetFullContentFromJson(countriesData: map<string, CountryRecord>, iso3Code: string): (r: Option<string>)
    ensures r.Some? <==> iso3Code in countriesData && countriesData[iso3Code].content != ""
    ensures r.Some? ==> r.value == countriesData[iso3Code].content
  {
    if iso3Code in countriesData && countriesData[iso3Code].content != "" then
      Some(countriesData[iso3Code].content)
    else None
  }

  /** Reading the snapshot written by the advisory job: the content of the last accepted feed
      entry with a given ISO3 code is found under that code, unless its text is empty. */
  lemma SnapshotContentFound(ids: seq<Json>, fetch: Json -> CountryFetch, htmlToText: Json -> string,
                              j: nat, iso3Code: string)
    requires j < |ids| && YieldsKey(fetch(ids[j]), iso3Code)
    requires forall i :: j < i < |ids| ==> !YieldsKey(fetch(ids[i]), iso3Code)
    ensures var text := StoredRecord(ids[j], fetch(ids[j]), htmlToText).content;
      GetFullContentFromJson(CollectCountries(ids, fetch, htmlToText), iso3Code)
      == if text == "" then None else Some(text)
  {
    CollectedLastWins(ids, fetch, htmlToText, j, iso3Code);
  }
}
