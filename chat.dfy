/** The chat route (server/api/chat.ts): validate the request, extend the session history in
    the in-memory session store, classify the question, resolve the country context (fresh or
    remembered), fetch weather and advisory data by the classification, choose the prompt and count
    tokens. The language models, the prompt templates, the tokenizer and the HTTP calls to the
    sibling routes are parameters. */
module Chat {
  import opened Js
  import opened Pinecone

  /** One chat message; only its text is used. */
  datatype Message = Message(content: string)

  /** What the session store keeps per session id. */
  datatype SessionData = SessionData(messages: seq<Message>, context: Option<string>)

  /** The request body; `None` is a missing field. */
  datatype ChatRequest = ChatRequest(messages: Option<seq<Message>>, sessionId: Option<string>)

  /** The prompts the route formats; `Apology` is the fixed text used for any other classification. */
  datatype Prompt =
    | ThemePrompt(userQuestion: string)
    | ContextPrompt(userQuestion: string)
    | WeatherPrompt(userQuestion: string, weatherData: string)
    | AdvisoryPrompt(userQuestion: string, auswaertigesAmtData: string)
    | BothPrompt(userQuestion: string, auswaertigesAmtData: string, weatherData: string)
    | OtherPrompt(userQuestion: string, auswaertigesAmtData: string, weatherData: string)
    | Apology

  const ApologyText := "Entschuldigen Sie, ich habe dazu keine genaue Antwort."

  const WeatherLabel := "Wetterabfrage"
  const AdvisoryLabel := "Auswärtiges Amt Daten"
  const BothLabel := "Beide"
  const OtherLabel := "Sonstiges"

  /** A GET to a sibling route: unreachable (fetch throws), or a status and a body that is
      JSON (`Some`) or not (`None`, `response.json()` throws). */
  datatype HttpReply = Unreachable | Reply(ok: bool, body: Option<Json>)

  /** The POST to the search route: unreachable or not JSON, answered with the value of
      `queryPineconeData`, or rejected with an error body that has no `results`. */
  datatype SearchReply = SearchUnreachable | SearchAnswered(response: QueryResponse) | SearchRejected

  /** The collaborators of one request. */
  datatype Services = Services(
    countTokens: string -> nat,      // tiktoken for gpt-4
    render: Prompt -> string,        // PromptTemplate.format
    classificationLlm: string -> string,
    search: string -> SearchReply,   // POST /api/queryData with the query text
    weatherHttp: string -> HttpReply, // GET /api/getWeatherData?iso3Code=
    contentHttp: string -> HttpReply, // GET /api/getCountryContent?iso3Code=
    chatLlmOk: bool)                 // whether the streaming call succeeds

  /** The token counters of one request. */
  datatype Usage = Usage(classificationInput: nat, classificationOutput: nat, contextInput: nat,
                         contextOutput: nat, input: nat, output: nat, total: nat)

  /** How a request ends: 400, 500, or a stream for the given model input. */
  datatype ChatResult = Rejected400 | Failed500 | Streamed(llmInput: seq<string>, usage: Usage)

  // ---------------------------------------------------------------------------
  // The lookup helpers

  const WeatherNotFound := "Keine Wetterdaten für diesen ISO3-Code gefunden."
  const WeatherFailed := "Fehler beim Abrufen der Wetterdaten."
  const ContentNotFound := "Kein Content für diesen ISO3-Code gefunden."
  const ContentFailed := "Fehler beim Abrufen des Contents."

  /** The payload field `key` of a sibling route's reply, or the helper's sentinels: "not
      found" when the field is falsy, "failed" on an unreachable route, a non-ok status or a
      body that is not JSON. The helper never throws. */
  function PayloadOr(reply: HttpReply, key: string, notFound: string, failed: string): (r: string)
    ensures (reply.Unreachable? || !reply.ok || reply.body.None?) ==> r == failed
    ensures reply.Reply? && reply.ok && reply.body.Some? ==>
      if Truthy(Member(reply.body.value, key)) then r == ToString(reply.body.value.fields[key])
      else r == notFound
  {
    if reply.Unreachable? || !reply.ok || reply.body.None? then failed
    else
      var field := Member(reply.body.value, key);
      if Truthy(field) then ToString(field.value) else notFound
  }

  /** `getWeatherData`. */
  function GetWeatherData(reply: HttpReply): string {
    PayloadOr(reply, "weatherData", WeatherNotFound, WeatherFailed)
  }

  /** `fetchContent`. */
  function FetchContent(reply: HttpReply): string {
    PayloadOr(reply, "content", ContentNotFound, ContentFailed)
  }

  /** What `getAuswaertigesAmtData` returns: a sentinel text, the `results` array, or
      `undefined`. */
  datatype Lookup = LookupText(text: string) | LookupResults(results: seq<ResultMatch>) | LookupUndefined

  /** `getAuswaertigesAmtData`. The "no results" branch is never taken: the search route
      always answers with an object, which has no `length`. */
  function GetAuswaertigesAmtData(reply: SearchReply): (r: Lookup)
    ensures reply.SearchUnreachable? <==> r == LookupText("Keine Länderdaten zur Verfügung.")
    ensures reply.SearchAnswered? ==> r == LookupResults(reply.response.results)
    ensures reply.SearchRejected? <==> r.LookupUndefined?
  {
    match reply
    case SearchUnreachable => LookupText("Keine Länderdaten zur Verfügung.")
    case SearchAnswered(response) => LookupResults(response.results)
    case SearchRejected => LookupUndefined
  }

  /** The test `pinecoreData.length > 0` and the key `pinecoreData[0].iso3CountryCode`. */
  datatype FirstMatch = NoMatch | MatchKey(key: string) | LengthOfUndefined

  function FirstMatchOf(v: Lookup): (r: FirstMatch)
    ensures v.LookupResults? && v.results != [] ==> r == MatchKey(Interpolate(v.results[0].iso3CountryCode))
    ensures v.LookupResults? && v.results == [] ==> r == NoMatch
    // the first character of a sentinel text has no `iso3CountryCode`
    ensures v.LookupText? && v.text != "" ==> r == MatchKey("undefined")
    ensures v.LookupUndefined? <==> r.LengthOfUndefined?
  {
    match v
    case LookupText(s) => if |s| > 0 then MatchKey("undefined") else NoMatch
    case LookupResults(rs) => if |rs| > 0 then MatchKey(Interpolate(rs[0].iso3CountryCode)) else NoMatch
    case LookupUndefined => LengthOfUndefined
  }

  // ---------------------------------------------------------------------------
  // The decision procedure as functions

  /** The 400 check: messages present and non-empty, and a non-empty session id. */
  predicate RequestAccepted(req: ChatRequest) {
    req.messages.Some? && |req.messages.value| > 0 && req.sessionId.Some? && req.sessionId.value != ""
  }

  /** `memoryStore.get(sessionId) || { messages: [], context: undefined }`. */
  function PreviousSession(store: map<string, SessionData>, sessionId: string): SessionData {
    if sessionId in store then store[sessionId] else SessionData([], None)
  }

  /** The trimmed classification reply. */
  function Label(userQuestion: string, svc: Services): string {
    Trim(svc.classificationLlm(svc.render(ThemePrompt(userQuestion))))
  }

  /** The trimmed context reply; the extraction runs only for a classification other than `Wetterabfrage`. */
  function Extraction(classification: string, userQuestion: string, svc: Services): (r: string)
    ensures classification == WeatherLabel ==> r == ""
  {
    if classification != WeatherLabel then Trim(svc.classificationLlm(svc.render(ContextPrompt(userQuestion)))) else ""
  }

  /** The context stored after the request: a non-empty extraction replaces the old one. */
  function NextContext(previous: Option<string>, extracted: string): Option<string> {
    if extracted != "" then Some(extracted) else previous
  }

  /** The context the request works with: the extraction, or the stored one when it is empty. */
  function EffectiveContext(previous: Option<string>, extracted: string): (r: string)
    ensures extracted != "" ==> r == extracted
    ensures extracted == "" && previous.Some? ==> r == previous.value
    ensures extracted == "" && previous.None? ==> r == ""
  {
    if extracted == "" && previous.Some? && previous.value != "" then previous.value else extracted
  }

  /** The chosen prompt, or the TypeError of `undefined.length`. */
  datatype Choice = Chosen(prompt: Prompt) | TypeErrorThrown

  /** The branches of the classification dispatch. */
  datatype Branch = WeatherBranch | AdvisoryBranch | BothBranch | OtherBranch | ApologyBranch

  /** Which branch a classification takes: `Wetterabfrage` only with a context. */
  function BranchOf(classification: string, context: string): (b: Branch)
    ensures b == WeatherBranch <==> classification == WeatherLabel && context != ""
    ensures b == AdvisoryBranch <==> classification == AdvisoryLabel
    ensures b == BothBranch <==> classification == BothLabel
    ensures b == OtherBranch <==> classification == OtherLabel
  {
    if classification == WeatherLabel && context != "" then WeatherBranch
    else if classification == AdvisoryLabel then AdvisoryBranch
    else if classification == BothLabel then BothBranch
    else if classification == OtherLabel then OtherBranch
    else ApologyBranch
  }

  /** The template of a data branch, filled from the first match or with the branch's
      placeholders: nothing for weather, `keine Daten` for the advisory, and `Keine Wetterdaten` /
      `Keine Auswertiges Amt Daten` for the combined templates. */
  function FillBranch(branch: Branch, userQuestion: string, m: FirstMatch, svc: Services): Prompt
    requires branch != ApologyBranch && !m.LengthOfUndefined?
  {
    var weatherData := if m.MatchKey? then GetWeatherData(svc.weatherHttp(m.key)) else "Keine Wetterdaten";
    var auswaertigesAmtData := if m.MatchKey? then FetchContent(svc.contentHttp(m.key)) else "Keine Auswertiges Amt Daten";
    match branch
    case WeatherBranch => WeatherPrompt(userQuestion, if m.MatchKey? then weatherData else "")
    case AdvisoryBranch => AdvisoryPrompt(userQuestion, if m.MatchKey? then auswaertigesAmtData else "keine Daten")
    case BothBranch => BothPrompt(userQuestion, auswaertigesAmtData, weatherData)
    case OtherBranch => OtherPrompt(userQuestion, auswaertigesAmtData, weatherData)
  }

  /** The first match of the vector search for the context. */
  function FirstMatchFor(context: string, svc: Services): FirstMatch {
    FirstMatchOf(GetAuswaertigesAmtData(svc.search(context)))
  }

  /** The classification dispatch: the apology, or the branch's template filled from the
      search for the context; `undefined.length` throws. */
  function Dispatch(classification: string, context: string, userQuestion: string, svc: Services): Choice {
    var branch := BranchOf(classification, context);
    if branch == ApologyBranch then Chosen(Apology)
    else
      var m := FirstMatchFor(context, svc);
      if m.LengthOfUndefined? then TypeErrorThrown else Chosen(FillBranch(branch, userQuestion, m, svc))
  }

  /** The text sent as the last message to the streaming model. */
  function PromptText(p: Prompt, svc: Services): string {
    if p.Apology? then ApologyText else svc.render(p)
  }

  function Contents(messages: seq<Message>): (r: seq<string>)
    ensures |r| == |messages|
    ensures forall i :: 0 <= i < |messages| ==> r[i] == messages[i].content
  {
    seq(|messages|, i requires 0 <= i < |messages| => messages[i].content)
  }

  /** The question of an accepted request: the first incoming message. */
  function Question(req: ChatRequest): string
    requires RequestAccepted(req)
  {
    req.messages.value[0].content
  }

  /** The session store after a request: for an accepted one, the session's history is
      extended by the incoming messages and a non-empty extraction replaces its context. */
  function StoreAfter(store: map<string, SessionData>, req: ChatRequest, svc: Services): map<string, SessionData> {
    if !RequestAccepted(req) then store
    else
      var sessionId := req.sessionId.value;
      var previous := PreviousSession(store, sessionId);
      var extracted := Extraction(Label(Question(req), svc), Question(req), svc);
      store[sessionId := SessionData(previous.messages + req.messages.value, NextContext(previous.context, extracted))]
  }

  /** The store after an accepted request, written out. */
  lemma StoreAfterAccepted(store: map<string, SessionData>, req: ChatRequest, svc: Services)
    requires RequestAccepted(req)
    ensures var previous := PreviousSession(store, req.sessionId.value);
      StoreAfter(store, req, svc) == store[req.sessionId.value := SessionData(previous.messages + req.messages.value,
        NextContext(previous.context, Extraction(Label(Question(req), svc), Question(req), svc)))]
  {
  }

  /** Storing a session twice keeps the second value. */
  lemma OverwriteSession(store: map<string, SessionData>, sessionId: string, first: SessionData, second: SessionData)
    ensures store[sessionId := first][sessionId := second] == store[sessionId := second]
  {
  }

  /** The context an accepted request works with. */
  function TurnContext(store: map<string, SessionData>, req: ChatRequest, svc: Services): string
    requires RequestAccepted(req)
  {
    var classification := Label(Question(req), svc);
    EffectiveContext(PreviousSession(store, req.sessionId.value).context, Extraction(classification, Question(req), svc))
  }

  /** The dispatch outcome of an accepted request. */
  function TurnChoice(store: map<string, SessionData>, req: ChatRequest, svc: Services): Choice
    requires RequestAccepted(req)
  {
    Dispatch(Label(Question(req), svc), TurnContext(store, req, svc), Question(req), svc)
  }

  /** The counters of the classification and context calls; the others are still 0. */
  function Counters(userQuestion: string, svc: Services): Usage {
    var classification := Label(userQuestion, svc);
    var extracting := classification != WeatherLabel;
    Usage(svc.countTokens(svc.render(ThemePrompt(userQuestion))), svc.countTokens(classification),
          if extracting then svc.countTokens(svc.render(ContextPrompt(userQuestion))) else 0,
          if extracting then svc.countTokens(Extraction(classification, userQuestion, svc)) else 0,
          0, 0, 0)
  }

  /** The counters once the streaming call is made with prompt `p`: the fixed apology is not
      counted as input, the output counter is never set, the total adds up the rest. */
  function WithInput(c: Usage, p: Prompt, svc: Services): Usage {
    var input := if p.Apology? then 0 else svc.countTokens(PromptText(p, svc));
    c.(input := input, output := 0, total := input + 0 + c.classificationInput + c.classificationOutput + c.contextInput + c.contextOutput)
  }

  /** How a turn ends once its dispatch is known: a thrown `TypeError` or a failing streaming
      call gives 500, otherwise the history and then the prompt are streamed. */
  function Outcome(history: seq<string>, choice: Choice, counters: Usage, svc: Services): ChatResult {
    match choice
    case TypeErrorThrown => Failed500
    case Chosen(p) =>
      if !svc.chatLlmOk then Failed500
      else Streamed(history + [PromptText(p, svc)], WithInput(counters, p, svc))
  }

  /** How a request against the session store ends. */
  function TurnResult(store: map<string, SessionData>, req: ChatRequest, svc: Services): ChatResult {
    if !RequestAccepted(req) then Rejected400
    else
      var history := PreviousSession(store, req.sessionId.value).messages + req.messages.value;
      Outcome(Contents(history), TurnChoice(store, req, svc), Counters(Question(req), svc), svc)
  }

  /** An accepted request whose dispatch throws ends with 500. */
  lemma TurnResultFailed(store: map<string, SessionData>, req: ChatRequest, svc: Services)
    requires RequestAccepted(req) && TurnChoice(store, req, svc) == TypeErrorThrown
    ensures TurnResult(store, req, svc) == Failed500
  {
  }

  /** Stored sessions always hold at least one message and never an empty context. */
  predicate StoreInvariant(store: map<string, SessionData>) {
    forall sessionId :: sessionId in store ==>
      |store[sessionId].messages| > 0 && store[sessionId].context != Some("")
  }

  /** The dispatch of the route: fetch the data the classification calls for and fill its
      template, or take the fixed apology; the chosen template is counted as input. */
  method ChoosePrompt(classification: string, contextSentence: string, userQuestion: string, svc: Services)
    returns (choice: Choice, inputTokenCount: nat)
    ensures choice == Dispatch(classification, contextSentence, userQuestion, svc)
    ensures choice.Chosen? && !choice.prompt.Apology? ==> inputTokenCount == svc.countTokens(svc.render(choice.prompt))
    ensures choice.Chosen? && choice.prompt.Apology? ==> inputTokenCount == 0
  {
    var auswaertigesAmtData, weatherData := "", "";
    var prompt: Prompt;
    inputTokenCount := 0;
    if classification == WeatherLabel && contextSentence != "" {
      var pinecoreData := FirstMatchOf(GetAuswaertigesAmtData(svc.search(contextSentence)));
      if pinecoreData.LengthOfUndefined? {
        return TypeErrorThrown, 0;
      }
      if pinecoreData.MatchKey? {
        weatherData := GetWeatherData(svc.weatherHttp(pinecoreData.key));
      }
      prompt := WeatherPrompt(userQuestion, weatherData);
      inputTokenCount := svc.countTokens(svc.render(prompt));
    } else if classification == AdvisoryLabel {
      var pinecoreData := FirstMatchOf(GetAuswaertigesAmtData(svc.search(contextSentence)));
      if pinecoreData.LengthOfUndefined? {
        return TypeErrorThrown, 0;
      }
      if pinecoreData.MatchKey? {
        auswaertigesAmtData := FetchContent(svc.contentHttp(pinecoreData.key));
      } else {
        auswaertigesAmtData := "keine Daten";
      }
      prompt := AdvisoryPrompt(userQuestion, auswaertigesAmtData);
      inputTokenCount := svc.countTokens(svc.render(prompt));
    } else if classification == BothLabel || classification == OtherLabel {
      var pinecoreData := FirstMatchOf(GetAuswaertigesAmtData(svc.search(contextSentence)));
      if pinecoreData.LengthOfUndefined? {
        return TypeErrorThrown, 0;
      }
      if pinecoreData.MatchKey? {
        weatherData := GetWeatherData(svc.weatherHttp(pinecoreData.key));
        auswaertigesAmtData := FetchContent(svc.contentHttp(pinecoreData.key));
      } else {
        weatherData := "Keine Wetterdaten";
        auswaertigesAmtData := "Keine Auswertiges Amt Daten";
      }
      prompt := if classification == BothLabel then BothPrompt(userQuestion, auswaertigesAmtData, weatherData)
                else OtherPrompt(userQuestion, auswaertigesAmtData, weatherData);
      inputTokenCount := svc.countTokens(svc.render(prompt));
    } else {
      prompt := Apology;
    }
    choice := Chosen(prompt);
  }

  // ---------------------------------------------------------------------------
  // The route

  /** The route with its module-level session store. */
  class ChatHandler {
    var memoryStore: map<string, SessionData>

    predicate Valid()
      reads this
    {
      StoreInvariant(memoryStore)
    }

    constructor ()
      ensures memoryStore == map[] && Valid()
    {
      memoryStore := map[];
    }

    /** The first half of an accepted request: store the history, classify the question,
        extract and store the context, fall back to the remembered one. */
    method BeginTurn(req: ChatRequest, svc: Services)
      returns (userQuestion: string, chatHistory: seq<string>, classification: string, contextSentence: string, counters: Usage)
      requires Valid() && RequestAccepted(req)
      modifies this
      ensures Valid()
      ensures memoryStore == StoreAfter(old(memoryStore), req, svc)
      ensures userQuestion == Question(req) && classification == Label(userQuestion, svc)
      ensures chatHistory == Contents(PreviousSession(old(memoryStore), req.sessionId.value).messages + req.messages.value)
      ensures contextSentence == TurnContext(old(memoryStore), req, svc)
      ensures counters == Counters(userQuestion, svc)
    {
      var messages, sessionId := req.messages.value, req.sessionId.value;
      var previousSessionData := if sessionId in memoryStore then memoryStore[sessionId] else SessionData([], None);
      ghost var previousContext := previousSessionData.context;
      var currentMessages := previousSessionData.messages + messages;
      userQuestion := messages[0].content;
      previousSessionData := previousSessionData.(messages := currentMessages);
      memoryStore := memoryStore[sessionId := previousSessionData];
      chatHistory := Contents(currentMessages);

      var themePromptFormatted := svc.render(ThemePrompt(userQuestion));
      var classificationInputTokens := svc.countTokens(themePromptFormatted);
      classification := Trim(svc.classificationLlm(themePromptFormatted));
      var classificationOutputTokens := svc.countTokens(classification);

      var contextInputTokens, contextOutputTokens := 0, 0;
      contextSentence := "";
      if classification != WeatherLabel {
        var contextPromptFormatted := svc.render(ContextPrompt(userQuestion));
        contextInputTokens := svc.countTokens(contextPromptFormatted);
        contextSentence := Trim(svc.classificationLlm(contextPromptFormatted));
        contextOutputTokens := svc.countTokens(contextSentence);
        if contextSentence != "" {
          previousSessionData := previousSessionData.(context := Some(contextSentence));
          OverwriteSession(old(memoryStore), sessionId, SessionData(currentMessages, previousContext), previousSessionData);
          memoryStore := memoryStore[sessionId := previousSessionData];
        }
      }
      StoreAfterAccepted(old(memoryStore), req, svc);
      TurnKeepsInvariant(old(memoryStore), req, svc);
      if contextSentence == "" && previousSessionData.context.Some? && previousSessionData.context.value != "" {
        contextSentence := previousSessionData.context.value;
      }
      counters := Usage(classificationInputTokens, classificationOutputTokens, contextInputTokens, contextOutputTokens, 0, 0, 0);
    }

    /** One request to the route. */
    method Handle(req: ChatRequest, svc: Services) returns (result: ChatResult)
      requires Valid()
      modifies this
      ensures Valid()
      ensures result == TurnResult(old(memoryStore), req, svc)
      ensures memoryStore == StoreAfter(old(memoryStore), req, svc)
    {
      if req.messages.None? || |req.messages.value| == 0 || req.sessionId.None? || req.sessionId.value == "" {
        return Rejected400;
      }
      var userQuestion, chatHistory, classification, contextSentence, counters := BeginTurn(req, svc);
      var choice, inputTokenCount := ChoosePrompt(classification, contextSentence, userQuestion, svc);
      result := Respond(chatHistory, choice, inputTokenCount, counters, svc);
    }
  }

  /** The end of the route: a thrown `TypeError` or a failing streaming call gives 500;
      otherwise the model gets the history and then the prompt, and the counters are totalled. */
  method Respond(chatHistory: seq<string>, choice: Choice, inputTokenCount: nat, counters: Usage, svc: Services)
    returns (result: ChatResult)
    requires choice.Chosen? && !choice.prompt.Apology? ==> inputTokenCount == svc.countTokens(svc.render(choice.prompt))
    requires choice.Chosen? && choice.prompt.Apology? ==> inputTokenCount == 0
    ensures result == Outcome(chatHistory, choice, counters, svc)
    ensures result.Streamed? ==>
              && result.llmInput[..|chatHistory|] == chatHistory
              && result.usage.total == result.usage.input + counters.classificationInput
                   + counters.classificationOutput + counters.contextInput + counters.contextOutput
  {
    if choice.TypeErrorThrown? {
      return Failed500;
    }
    var prompt := choice.prompt;
    var outputTokenCount := 0;
    if !svc.chatLlmOk {
      return Failed500;
    }
    var promptText := if prompt.Apology? then ApologyText else svc.render(prompt);
    var totalTokens := inputTokenCount + outputTokenCount + counters.classificationInput
      + counters.classificationOutput + counters.contextInput + counters.contextOutput;
    result := Streamed(chatHistory + [promptText], counters.(input := inputTokenCount, output := outputTokenCount, total := totalTokens));
    assert result.llmInput[..|chatHistory|] == chatHistory;
  }

  // ---------------------------------------------------------------------------
  // Properties of a request

  /** A request is rejected with 400 exactly when it lacks messages or a session id, and a
      rejected request leaves the store alone. */
  lemma RejectedIff(store: map<string, SessionData>, req: ChatRequest, svc: Services)
    ensures TurnResult(store, req, svc).Rejected400? <==> !RequestAccepted(req)
    ensures !RequestAccepted(req) ==> StoreAfter(store, req, svc) == store
  {
  }

  /** An accepted request appends its messages to the session's history, in order, whatever
      happens afterwards; no other session changes; the model sees the whole history and then
      the prompt. */
  lemma HistoryAppended(store: map<string, SessionData>, req: ChatRequest, svc: Services)
    requires RequestAccepted(req)
    ensures var after := StoreAfter(store, req, svc);
      var sessionId := req.sessionId.value;
      && sessionId in after
      && after[sessionId].messages == PreviousSession(store, sessionId).messages + req.messages.value
      && (forall other :: other != sessionId ==> (other in after <==> other in store))
      && (forall other :: other in store && other != sessionId ==> after[other] == store[other])
      && (TurnResult(store, req, svc).Streamed? ==>
           Contents(after[sessionId].messages) <= TurnResult(store, req, svc).llmInput)
  {
    var sessionId := req.sessionId.value;
    var previous := PreviousSession(store, sessionId);
    var extracted := Extraction(Label(Question(req), svc), Question(req), svc);
    var session := SessionData(previous.messages + req.messages.value, NextContext(previous.context, extracted));
    assert StoreAfter(store, req, svc) == store[sessionId := session];
    assert TurnResult(store, req, svc)
           == Outcome(Contents(session.messages), TurnChoice(store, req, svc), Counters(Question(req), svc), svc);
    StreamedStartsWithHistory(Contents(session.messages), TurnChoice(store, req, svc), Counters(Question(req), svc), svc);
  }

  /** A streamed turn hands the model the history first. */
  lemma StreamedStartsWithHistory(history: seq<string>, choice: Choice, counters: Usage, svc: Services)
    ensures Outcome(history, choice, counters, svc).Streamed? ==>
      history <= Outcome(history, choice, counters, svc).llmInput
  {
    if Outcome(history, choice, counters, svc).Streamed? {
      assert Outcome(history, choice, counters, svc).llmInput == history + [PromptText(choice.prompt, svc)];
    }
  }

  /** The stored context changes only through a non-empty extraction, and never for a
      `Wetterabfrage` classification. */
  lemma ContextOverwrittenOnlyByExtraction(store: map<string, SessionData>, req: ChatRequest, svc: Services)
    requires RequestAccepted(req)
    ensures var sessionId := req.sessionId.value;
      var userQuestion := req.messages.value[0].content;
      var extracted := Extraction(Label(userQuestion, svc), userQuestion, svc);
      var after := StoreAfter(store, req, svc)[sessionId].context;
      && (extracted != "" ==> after == Some(extracted))
      && (extracted == "" ==> after == PreviousSession(store, sessionId).context)
      && (Label(userQuestion, svc) == WeatherLabel ==> after == PreviousSession(store, sessionId).context)
  {
  }

  /** Every request keeps the store invariant. */
  lemma TurnKeepsInvariant(store: map<string, SessionData>, req: ChatRequest, svc: Services)
    requires StoreInvariant(store)
    ensures StoreInvariant(StoreAfter(store, req, svc))
  {
    if RequestAccepted(req) {
      var sessionId := req.sessionId.value;
      var previous := PreviousSession(store, sessionId);
      var extracted := Extraction(Label(Question(req), svc), Question(req), svc);
      var session := SessionData(previous.messages + req.messages.value, NextContext(previous.context, extracted));
      StoreAfterAccepted(store, req, svc);
      SessionUpdateKeepsInvariant(store, sessionId, session);
    } else {
      assert StoreAfter(store, req, svc) == store;
    }
  }

  /** Storing a session with a message and without an empty context keeps the invariant. */
  lemma SessionUpdateKeepsInvariant(store: map<string, SessionData>, sessionId: string, session: SessionData)
    requires StoreInvariant(store) && |session.messages| > 0 && session.context != Some("")
    ensures StoreInvariant(store[sessionId := session])
  {
  }

  /** The totals: the six counters add up, the output counter stays 0, and the apology prompt
      is not counted as input. */
  lemma UsageTotals(store: map<string, SessionData>, req: ChatRequest, svc: Services)
    requires TurnResult(store, req, svc).Streamed?
    ensures RequestAccepted(req)
    ensures var u := TurnResult(store, req, svc).usage;
      && u.output == 0
      && u.total == u.classificationInput + u.classificationOutput + u.contextInput + u.contextOutput + u.input
      && (Dispatch(Label(Question(req), svc), TurnContext(store, req, svc), Question(req), svc) == Chosen(Apology)
          ==> u.input == 0)
      && (Label(Question(req), svc) == WeatherLabel ==> u.contextInput == 0 && u.contextOutput == 0)
  {
  }

  /** A classification is handled by a template: `Wetterabfrage` with a context, or one of the other three. */
  predicate Handled(classification: string, context: string) {
    (classification == WeatherLabel && context != "") || classification == AdvisoryLabel || classification == BothLabel || classification == OtherLabel
  }

  /** The fixed apology is chosen exactly for an unhandled classification. */
  lemma ApologyIff(classification: string, context: string, userQuestion: string, svc: Services)
    ensures Dispatch(classification, context, userQuestion, svc) == Chosen(Apology) <==> !Handled(classification, context)
  {
  }

  /** With a successful search, each classification gets its own template, filled from the first
      match's ISO3 code, or with that classification's placeholders when there is no match. */
  lemma DispatchTable(classification: string, context: string, userQuestion: string, svc: Services, response: QueryResponse)
    requires Handled(classification, context)
    requires svc.search(context) == SearchAnswered(response)
    ensures var key := if response.results == [] then "" else Interpolate(response.results[0].iso3CountryCode);
      var found := response.results != [];
      var weather := GetWeatherData(svc.weatherHttp(key));
      var content := FetchContent(svc.contentHttp(key));
      Dispatch(classification, context, userQuestion, svc) ==
        if classification == WeatherLabel then Chosen(WeatherPrompt(userQuestion, if found then weather else ""))
        else if classification == AdvisoryLabel then Chosen(AdvisoryPrompt(userQuestion, if found then content else "keine Daten"))
        else if classification == BothLabel then
          Chosen(BothPrompt(userQuestion, if found then content else "Keine Auswertiges Amt Daten",
                            if found then weather else "Keine Wetterdaten"))
        else Chosen(OtherPrompt(userQuestion, if found then content else "Keine Auswertiges Amt Daten",
                                if found then weather else "Keine Wetterdaten"))
  {
  }

  /** A handled classification fails with the TypeError when the search route rejects the query text;
      when the search route cannot be reached, the lookups use the key `undefined`. */
  lemma DispatchOnSearchFailure(classification: string, context: string, userQuestion: string, svc: Services)
    requires Handled(classification, context)
    ensures svc.search(context) == SearchRejected ==> Dispatch(classification, context, userQuestion, svc) == TypeErrorThrown
    ensures svc.search(context) == SearchUnreachable && classification == BothLabel ==>
      Dispatch(classification, context, userQuestion, svc)
      == Chosen(BothPrompt(userQuestion, FetchContent(svc.contentHttp("undefined")),
                           GetWeatherData(svc.weatherHttp("undefined"))))
  {
  }

  /** A weather question in a fresh session skips the extraction and has no remembered
      context, so it falls through to the apology, counted as no input tokens. */
  lemma FirstTurnWeatherGetsApology(store: map<string, SessionData>, req: ChatRequest, svc: Services)
    requires RequestAccepted(req) && req.sessionId.value !in store
    requires Label(Question(req), svc) == WeatherLabel && svc.chatLlmOk
    ensures var r := TurnResult(store, req, svc);
      && r.Streamed?
      && r.llmInput == Contents(req.messages.value) + [ApologyText]
      && r.usage.input == 0 && r.usage.contextInput == 0
  {
    assert PreviousSession(store, req.sessionId.value).messages + req.messages.value == req.messages.value;
  }

  /** A context extracted in one turn is remembered: a later weather question in the same
      session, which extracts nothing, works with it. */
  lemma ContextCarriesOver(store: map<string, SessionData>, first: ChatRequest, svc1: Services,
                           second: ChatRequest, svc2: Services)
    requires RequestAccepted(first) && RequestAccepted(second)
    requires first.sessionId == second.sessionId
    requires Extraction(Label(Question(first), svc1), Question(first), svc1) != ""
    requires Label(Question(second), svc2) == WeatherLabel
    ensures TurnContext(StoreAfter(store, first, svc1), second, svc2)
         == Extraction(Label(Question(first), svc1), Question(first), svc1)
    ensures Handled(Label(Question(second), svc2), TurnContext(StoreAfter(store, first, svc1), second, svc2))
  {
  }

  /** An advisory question without any context fails with 500 once the search route rejects
      the empty query text (as it does), although its messages are already stored. */
  lemma EmptyContextAdvisoryFails(store: map<string, SessionData>, req: ChatRequest, svc: Services)
    requires RequestAccepted(req) && req.sessionId.value !in store
    requires Label(Question(req), svc) == AdvisoryLabel
    requires Extraction(AdvisoryLabel, Question(req), svc) == ""
    requires svc.search("") == SearchRejected
    ensures TurnResult(store, req, svc) == Failed500
    ensures req.sessionId.value in StoreAfter(store, req, svc)
  {
    assert TurnContext(store, req, svc) == "";
    DispatchOnSearchFailure(AdvisoryLabel, "", Question(req), svc);
    TurnResultFailed(store, req, svc);
  }

}
