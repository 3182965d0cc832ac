# Travel-assistant core in Dafny

This project models the core of a Nuxt travel-assistant chatbot and proves properties of that model.

- **Advisory snapshot job.** `server/api/fetch-AuswaertigsAmt.ts` fetches every country id of the German Federal Foreign Office's travel-warning feed. It keeps the entries that are objects carrying the required keys and normalises them. The result is a dictionary keyed by each entry's ISO3 code.
- **Vector store.** `utils/pineconeHandler.ts` cuts each snapshot record into overlapping token windows. It stores one embedded vector per window under `${iso3}_chunk_${i}`, with its metadata. It also builds the metadata filter of a similarity query, shapes the query's answer, and looks content up in the snapshot.
- **Two weather handlers.** `utils/weatherDataHandler.ts` and `utils/weatherDatHandler.ts` filter the monthly-temperature CSV by a country code and summarise the kept rows. The first one also rejects an empty code and sorts the rows by calendar month.
- **Chat route.** `server/api/chat.ts` validates a request and extends the session's history in a module-level session store. It classifies the question and extracts (or remembers) a country context. Then it searches the vector store for that context and fetches weather and advisory text for the first match. Finally it fills the template the classification calls for, hands history plus prompt to the streaming model, and totals the token counters.
- **Client store.** `stores/chatStore.ts` holds the message list, the input field and the loading flag. Its `sendMessage` posts the input to the chat route and appends the trimmed reply.

## How the model is built

Everything outside the core is a parameter, so it is not modelled:

- the language models, prompt-template formatting and the tokenizers;
- the embedding and index services, and the HTTP calls between routes;
- the CSV stream, JSDOM and the clock.

Pure helpers are functions, for example the filter, the result shaping, the sentinel texts of the lookup helpers and the dispatch. Code that works by changing state is imperative and is proved against specification functions:

- **Loops** are methods with invariants: the country loop, the chunker, the two ingestion loops and the CSV row loops.
- **Month sort.** It is an insertion sort in place on an `array`. It is proved equal to a stable sort function, and that function is proved sorted, a permutation and stable.
- **Vector index.** It is a class whose `Upsert` updates a map.
- **Chat route.** It is a class over its session-store map. Each request is proved to end as the function `TurnResult` says, to leave the store as `StoreAfter` says, and to keep the store invariant.
- **Client store.** It is a class with the three fields of the Pinia state.

The JavaScript semantics the code relies on are modelled explicitly in module `Js`: truthiness, `a || b`, `String()` coercion, template interpolation of `undefined`, `trim` with the ECMAScript white-space set, and `join`.

Where the code's behaviour is surprising, the model follows the code:

- `getAuswaertigesAmtData` returns a sentinel string when the search route is unreachable. `pinecoreData[0].iso3CountryCode` is then `undefined`, so the lookups use the key `"undefined"`.
- When the search route answers with an error object that has no `results`, `pinecoreData.length` throws a `TypeError`, and the request ends with 500.
- The search route rejects an empty query text. An advisory question for which no context was ever extracted therefore fails with 500 after its messages were stored.

## Model

| member | source | states |
|---|---|---|
| Advisory.IsValidContent | server/api/fetch-AuswaertigsAmt.ts:20-23 | true exactly when all six required keys are present; then `iso3CountryCode` in particular is present |
| Advisory.ParseCountryData | server/api/fetch-AuswaertigsAmt.ts:31-50 | the descriptive fields and `lastChanges` are copied as they are (`undefined` when absent); each warning flag is the entry's value when truthy and `false` otherwise; the disclaimer likewise defaults to `''`; content is the HTML's text when truthy and `''` otherwise; no list id yet |
| Advisory.ProcessAllCountries | server/api/fetch-AuswaertigsAmt.ts:52-82 | the dictionary the loop builds equals `CollectCountries` of the content list, which the lemmas below characterise |
| Advisory.CollectedKeysMatchIso | server/api/fetch-AuswaertigsAmt.ts:66-74 | every stored record carries the ISO3 code it is stored under |
| Advisory.CollectedIdsFromList | server/api/fetch-AuswaertigsAmt.ts:71-74 | every stored record remembers as `originalId` an id of the content list |
| Advisory.CollectedKeysExactly | server/api/fetch-AuswaertigsAmt.ts:59-79 | a key is present if and only if some id of the list yielded an accepted entry with that ISO3 code |
| Advisory.CollectedLastWins | server/api/fetch-AuswaertigsAmt.ts:71-74 | when several ids yield the same code, the record of the last of them is stored |
| Advisory.RejectedIdSkipped | server/api/fetch-AuswaertigsAmt.ts:62-78 | an id whose fetch throws or whose entry is rejected leaves the result as if it were not in the list; the later ids are still processed |
| Pinecone.SplitTextIntoChunks | utils/pineconeHandler.ts:48-67 | the chunks are the windows of `maxTokens` tokens starting every `maxTokens - overlap` tokens; chunk k starts k strides in and its text is `${countryName}: ` plus the decoded window; there are no chunks exactly when there are no tokens |
| Pinecone.ConsecutiveChunksOverlap | utils/pineconeHandler.ts:53-64 | the tokens of chunk k after the stride begin chunk k + 1; a full window shares exactly `overlap` tokens with the next |
| Pinecone.ChunksCoverEveryToken | utils/pineconeHandler.ts:53-64 | with a non-negative overlap every token lies in some chunk |
| Pinecone.LastChunkEndsAtEnd | utils/pineconeHandler.ts:53-64 | with a non-negative overlap the last chunk ends at the last token |
| Pinecone.ChunksFromCount | utils/pineconeHandler.ts:53-64 | the number of chunks is just enough: the last window starts inside the tokens and the next one would start beyond them |
| Pinecone.FullWindowGivesContainedTail | utils/pineconeHandler.ts:125-127 | with the ingestion settings a 5000-token text gives two chunks, the second holding only the last 1000 tokens of the first |
| Pinecone.VectorIdsDistinct | utils/pineconeHandler.ts:139 | two chunk indices of one country never give the same vector id |
| Pinecone.VectorIndex.Upsert | utils/pineconeHandler.ts:137-150 | a successful upsert stores the vector under its id, replacing any old one; a failed one leaves the index unchanged |
| Pinecone.StoreCountryChunks | utils/pineconeHandler.ts:131-156 | the index after the inner loop is `StoreChunks` of the old index: each chunk whose embedding and upsert succeed is written, a failing one is skipped |
| Pinecone.IngestCountry | utils/pineconeHandler.ts:124-156 | one pass of the outer loop stores the entry's chunks, cut from `${countryName}: ${content}`, as `StoreCountry` of the old index says |
| Pinecone.ProcessAndStoreData | utils/pineconeHandler.ts:107-157 | the index after the outer loop is `StoreCountries` of the old index: every snapshot entry chunked from `${countryName}: ${content}` with 5000-token windows and 1000 tokens of overlap |
| Pinecone.StoredChunkLayout | utils/pineconeHandler.ts:131-150 | every chunk whose embedding and upsert succeed is in the index under its own id, with its embedding, `chunkIndex` its position and `totalChunks` the chunk count; no later chunk overwrites it |
| Pinecone.StoredChunkIdsOnly | utils/pineconeHandler.ts:131-150 | the inner loop writes no id other than the chunk ids of its own country |
| Pinecone.FilterIsDetermined | utils/pineconeHandler.ts:175-193 | the filter specification admits exactly one filter for given options |
| Pinecone.BuildFilter | utils/pineconeHandler.ts:175-193 | `countryName` and `iso3CountryCode` are in the filter exactly when given and non-empty; `warning` is in it whenever defined, `false` included; nothing else is; an empty filter is sent as `undefined` |
| Pinecone.MetadataField | utils/pineconeHandler.ts:199-204 | `match.metadata?.key` is defined exactly when the match has metadata holding the key, and is then that value |
| Pinecone.StoredChunkReadsBack | utils/pineconeHandler.ts:197-206 | a match of a vector stored by ingestion reads back its id, score, ISO3 code, country name, warning, chunk text, index and count |
| Pinecone.ShapeResponse | utils/pineconeHandler.ts:197-221 | success exactly when the query answered; then one result per match in the service's order with `totalResults` the count; otherwise no results and the error text `Fehler bei der Datenbankabfrage: …` |
| Pinecone.QueryPineconeData | utils/pineconeHandler.ts:161-223 | a failing embedding gives the error shape; otherwise the answer is the shaped result of querying the embedding with `includeMetadata` and a filter meeting the filter specification |
| Pinecone.GetFullContentFromJson | utils/pineconeHandler.ts:226-233 | the content is returned exactly when the record exists and its content is non-empty, `null` otherwise |
| Pinecone.SnapshotContentFound | utils/pineconeHandler.ts:226-233 | over the advisory snapshot, the content lookup for a code finds the content of the last accepted feed entry with that code, or `null` when that content is empty |
| WeatherRows.Entries | utils/weatherDataHandler.ts:54-56 | one summary entry per row, in the rows' order |
| WeatherRows.EveryRowInSummary | utils/weatherDataHandler.ts:54-56 | each row's entry, and so its month name, occurs in the joined summary |
| WeatherRows.FilterRows | utils/weatherDatHandler.ts:22-26 | a row is kept exactly when it is in the input and the predicate holds for it |
| WeatherRows.FilterRowsOfConcat | utils/weatherDataHandler.ts:27-36 | filtering distributes over concatenation, so the kept rows stay in file order |
| WeatherSorted.IndexOf | utils/weatherDataHandler.ts:51 | `indexOf` is -1 exactly for a month name not in the list, otherwise its first position |
| WeatherSorted.SortBySortedPermutation | utils/weatherDataHandler.ts:51 | the month sort yields rows in calendar order and a permutation of its input |
| WeatherSorted.SortByStable | utils/weatherDataHandler.ts:51 | rows of the same month keep their original order |
| WeatherSorted.InsertLast | utils/weatherDataHandler.ts:51 | one pass of the in-place sort inserts row i into the sorted prefix and leaves the rest of the array alone |
| WeatherSorted.SortRowsBy | utils/weatherDataHandler.ts:51 | the array ends up as the stable month sort of its old contents |
| WeatherSorted.GetTemperatureDataByIsoCode | utils/weatherDataHandler.ts:15-64 | the promise settles as `TemperatureReport` of the code and the CSV stream |
| WeatherSorted.RejectedIff | utils/weatherDataHandler.ts:17-19 | the promise rejects exactly for an empty code (`Ungültiger ISO-Code übergeben.`) or an error the CSV parser emits (`Fehler beim Einlesen der Wetterdaten: …`) |
| WeatherSorted.NotFoundIff | utils/weatherDataHandler.ts:38-40 | a non-empty code resolves to the not-found sentinel exactly when no row matches it |
| WeatherSorted.FoundReportLayout | utils/weatherDataHandler.ts:42-58 | a found report is headed by the country of the first matching row in file order, then lists every matching row once, in calendar order, rows of one month in file order |
| WeatherSorted.EveryMonthReported | utils/weatherDataHandler.ts:54-58 | every month that has a matching row is named in the report |
| WeatherSorted.MatchIgnoresCase | utils/weatherDataHandler.ts:29-31 | codes with the same upper-case form keep the same rows |
| WeatherWired.GetTemperatureDataByIsoCode | utils/weatherDatHandler.ts:15-43 | the promise settles as `TemperatureReport` of the code and the CSV stream |
| WeatherWired.RejectedIff | utils/weatherDatHandler.ts:39-41 | only an error the CSV parser emits rejects; an empty code is looked up like any other |
| WeatherWired.EmptyCodeMatchesEmptyCells | utils/weatherDatHandler.ts:23 | the empty code matches exactly the rows whose code cell is empty |
| WeatherWired.NotFoundIff | utils/weatherDatHandler.ts:28-30 | the report is the not-found sentinel exactly when no row matches |
| WeatherWired.FoundReportLayout | utils/weatherDatHandler.ts:33-37 | a found report is headed by the code as passed and lists exactly the matching rows, in file order |
| WeatherWired.AllMatchingKeepsAll | utils/weatherDatHandler.ts:22-26 | when every row matches, every row is kept, in order |
| WeatherWired.MatchIgnoresCase | utils/weatherDatHandler.ts:23 | codes with the same upper-case form keep the same rows |
| Chat.PayloadOr | server/api/chat.ts:432-448 | an unreachable route, a non-ok status or a non-JSON body gives the "failed" sentinel; otherwise the field's text when truthy, else the "not found" sentinel (shared by `getWeatherData` and `fetchContent`) |
| Chat.GetAuswaertigesAmtData | server/api/chat.ts:451-473 | an unreachable search route gives `Keine Länderdaten zur Verfügung.`; an answer gives its `results`; an error body gives `undefined` |
| Chat.FirstMatchOf | server/api/chat.ts:246-247 | the first result's ISO3 code when there are results; no match for an empty list; the key `undefined` for a sentinel text; the `TypeError` for `undefined` |
| Chat.Extraction | server/api/chat.ts:206-217 | no context is extracted for a `Wetterabfrage` classification |
| Chat.EffectiveContext | server/api/chat.ts:226-229 | the fresh extraction when non-empty, otherwise the remembered context, otherwise `''` |
| Chat.BranchOf | server/api/chat.ts:244-310 | the weather branch exactly for `Wetterabfrage` with a context; the advisory, `Beide` and `Sonstiges` branches exactly for their labels |
| Chat.ChoosePrompt | server/api/chat.ts:236-310 | the dispatch chooses `Dispatch` of classification and context; a chosen template is counted as input tokens and the apology is not |
| Chat.ChatHandler.constructor | server/api/chat.ts:11 | the session store starts empty and satisfies the store invariant |
| Chat.ChatHandler.BeginTurn | server/api/chat.ts:171-229 | the store becomes `StoreAfter`; the history, question, classification, context and the classification and context token counters are those of the request |
| Chat.ChatHandler.Handle | server/api/chat.ts:162-357 | a request ends as `TurnResult` says and leaves the store as `StoreAfter` says, keeping the store invariant |
| Chat.Respond | server/api/chat.ts:315-357 | a thrown `TypeError` or a failing streaming call gives 500; otherwise the model gets the history, then the prompt, and the total is the sum of the counters |
| Chat.RejectedIff | server/api/chat.ts:164-169 | a request is rejected with 400 exactly when it lacks messages or a session id, and a rejected request leaves the store alone |
| Chat.HistoryAppended | server/api/chat.ts:171-183 | an accepted request appends its messages to its session's history and changes no other session; the model sees that whole history before the prompt |
| Chat.ContextOverwrittenOnlyByExtraction | server/api/chat.ts:206-224 | the stored context changes only through a non-empty extraction, and never for `Wetterabfrage` |
| Chat.TurnKeepsInvariant | server/api/chat.ts:171-224 | every request keeps stored sessions non-empty and their contexts never `''` |
| Chat.UsageTotals | server/api/chat.ts:351-357 | the total is the sum of the counters; the output counter stays 0; the apology adds no input tokens; a weather question counts no context tokens |
| Chat.ApologyIff | server/api/chat.ts:244-310 | the fixed apology is chosen exactly for an unhandled classification |
| Chat.DispatchTable | server/api/chat.ts:244-306 | with a successful search each handled classification gets its own template, filled from the first match's code or with its own placeholders |
| Chat.DispatchOnSearchFailure | server/api/chat.ts:244-247 | a rejected search makes every handled classification throw; for `Beide` an unreachable one makes both lookups use the key `undefined` |
| Chat.FirstTurnWeatherGetsApology | server/api/chat.ts:207-229 | a weather question in a fresh session has no context and gets the apology, counted as no input |
| Chat.ContextCarriesOver | server/api/chat.ts:219-229 | a context extracted in one turn is used by a later weather question of the same session |
| Chat.EmptyContextAdvisoryFails | server/api/chat.ts:257-259 | an advisory question in a fresh session without an extracted context fails with 500 once the search rejects the empty text, although its session is stored |
| ChatStore.Store.constructor | stores/chatStore.ts:7-17 | the list starts with the greeting, the input is empty and nothing is loading |
| ChatStore.Store.SendMessage | stores/chatStore.ts:31-66 | a blank input changes nothing and posts nothing; otherwise the input is appended as typed and posted, a reply is appended trimmed, a failure is swallowed, loading ends and the input is cleared; the list keeps its shape |
| ChatStore.ExchangeShape | stores/chatStore.ts:35-59 | a send appends one user entry, plus one trimmed reply entry exactly when the POST succeeded |
| ChatStore.ExchangeKeepsWellFormed | stores/chatStore.ts:31-66 | after a send the list still opens with the greeting, holds no blank user entry and only trimmed replies |
| ChatStore.StoreRequestAlwaysRejected | stores/chatStore.ts:44-52 | the body the store posts is answered with 400 by the chat route and leaves the session store unchanged, whatever the input |
| ChatStore.IntendedRequestAccepted | stores/chatStore.ts:44-52 | a body with the input as the only message and a session id passes the route's check exactly when the id is non-empty, and appends the input to that session |
| Js.NatToStringInjective | utils/pineconeHandler.ts:139 | different chunk indices print differently, which the ids rely on |
| Js.TrimIsEmptyIff | stores/chatStore.ts:32 | an input trims to `''` exactly when it is all white space |
| Js.TrimIdempotent | stores/chatStore.ts:55-59 | a trimmed reply trims to itself |
| Js.JoinContainsEachPart | utils/weatherDataHandler.ts:54-56 | every part joined with `'; '` occurs in the joined text |

## Left out

- **I/O and clocks.** The HTTP calls, file reads and writes, the CSV stream, JSDOM, the language models, the tokenizers, the embedding and index services and the clock are parameters. Console logging, Langfuse tracing, timings and costs (floating point) are left out.
- **Snapshot job.** The feed request and the `response?.contentList \|\| []` default are not modelled: `Advisory.ProcessAllCountries` takes the content list. Writing the file and the route's reply are I/O.
- **Advisory.ProcessAllCountries:** its postcondition only ties the result to `CollectCountries`. The stored codes and list ids are stated as lemmas on that function (`CollectedKeysMatchIso`, `CollectedIdsFromList`), not on the method.
- **Vector store.**
  - `checkAndInitIndex` is a call into the index service and is left out.
  - `Pinecone.ProcessAndStoreData` takes the snapshot entries as a list of pairs, in the order `Object.entries` gives them.
  - Embedding values are sequences of reals that are only passed around.
- **Query results.** The `score` of a query result is an optional real that is copied. Integer JSON numbers stand for all numbers.
- **Js.Upper:** maps only the ASCII letters; `toUpperCase` on other letters is not modelled.
- **WeatherWired.GetTemperatureDataByIsoCode:** requires every row to carry an `ISO_Code` cell. A row without one throws inside the stream callback, outside the promise, and that crash is not modelled.
- WeatherSorted.RejectedIff, WeatherWired.RejectedIff: `CsvRead.error` stands for an error the CSV parser emits. The `error` handler sits on the parser that `pipe` returns, and `pipe` does not pass the file stream's errors on to it. A file-read error, such as a missing CSV file, therefore never reaches the handler, and the promise stays pending; the model has no such never-settling outcome.
- **Weather handlers.** The CSV stream is modelled as its rows followed by `end` or `error`. Rows read before an error are not reported. The non-string `isoCode` test is left out, because the code is always a string here. The example call at the end of `utils/weatherDatHandler.ts` is I/O.
- **Chat route.**
  - Exceptions from the classification and context model calls and from template formatting are not modelled: those calls always answer.
  - The streaming call is modelled by whether it succeeds.
  - The `Keine Ergebnisse gefunden` branch of `getAuswaertigesAmtData` is not reachable, because the search route always answers with an object, which has no `length`.
  - The missing-API-key check at start-up is not modelled.
- **Chat.EmptyContextAdvisoryFails:** states only that the session is stored, not its whole new content; `Chat.HistoryAppended` states that content for every accepted request.
- **Concurrency.** Requests and sends are atomic, so interleavings of concurrent requests on the shared session store are not modelled. For the same reason the client's loading flag is never seen `true` between actions.
- **Client getters.** `allMessages` and `isLoading` only return the state fields, which the model reads directly.
- **Message timestamps.** The `time` of a message is the formatted clock reading, passed in.

## Findings

| source | as written | input that shows it | evidently intended | confidence | as-written member | corrected member |
|---|---|---|---|---|---|---|
| stores/chatStore.ts:44-52 | the store posts `{ prompt: userInput }`, but server/api/chat.ts:162-169 reads `messages` and `sessionId` and answers 400 when either is missing | any non-blank input, e.g. `"Wie ist das Wetter in Spanien?"`: the body has neither field, so the route answers 400, axios throws and no reply is ever appended | post the input as a message together with a session id | high; not executed | ChatStore.StoreRequestAlwaysRejected | ChatStore.IntendedRequestAccepted |

`ChatStore.Store.SendMessage` still returns the body as written (`StoreRequestBody`), so the client model stays faithful to the code. `IntendedRequestBody` is the corrected body. `ChatStore.IntendedRequestAccepted` proves that the route accepts it for any non-empty session id and appends the input to that session.
