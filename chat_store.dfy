/** The client-side chat store (stores/chatStore.ts): the message list shown to the user, the
    text field and the loading flag, and `sendMessage`, which appends the user's message, posts it
    to the chat route and appends the trimmed reply. The clock and the HTTP call are parameters. */
module ChatStore {
  import opened Js
  import opened Chat

  /** One entry of the message list; `time` is the formatted clock reading. */
  datatype ChatMessage = ChatMessage(text: string, isUser: bool, time: string)

  /** The greeting the list starts with. */
  const Greeting := "Stelle mir eine Frage über deine Auslandsreise für nötige Informationenen vor deiner Reise."

  /** How the POST to the chat route settles: a reply whose `data.data` is the given text, or a
      thrown error (unreachable route, non-2xx status, a body without `data`). */
  datatype PostOutcome = Replied(data: string) | PostFailed

  /** The body the store posts, `{ prompt }`, as the chat route destructures it: it carries
      neither `messages` nor `sessionId`. */
  function StoreRequestBody(userInput: string): ChatRequest {
    ChatRequest(None, None)
  }

  /** The body the chat route expects: the input as the only message, and the session id. */
  function IntendedRequestBody(userInput: string, sessionId: string): ChatRequest {
    ChatRequest(Some([Message(userInput)]), Some(sessionId))
  }

  /** As written, every message the store sends is answered with 400 and leaves the session
      store untouched, whatever the input. */
  lemma StoreRequestAlwaysRejected(store: map<string, SessionData>, userInput: string, svc: Services)
    ensures !RequestAccepted(StoreRequestBody(userInput))
    ensures TurnResult(store, StoreRequestBody(userInput), svc) == Rejected400
    ensures StoreAfter(store, StoreRequestBody(userInput), svc) == store
  {
  }

  /** The intended body passes the route's check exactly when the session id is non-empty; the
      input then becomes the question and is appended to that session's history. */
  lemma IntendedRequestAccepted(store: map<string, SessionData>, userInput: string, sessionId: string, svc: Services)
    ensures RequestAccepted(IntendedRequestBody(userInput, sessionId)) <==> sessionId != ""
    ensures sessionId != "" ==>
              && Question(IntendedRequestBody(userInput, sessionId)) == userInput
              && sessionId in StoreAfter(store, IntendedRequestBody(userInput, sessionId), svc)
              && StoreAfter(store, IntendedRequestBody(userInput, sessionId), svc)[sessionId].messages
                 == PreviousSession(store, sessionId).messages + [Message(userInput)]
  {
    if sessionId != "" {
      HistoryAppended(store, IntendedRequestBody(userInput, sessionId), svc);
    }
  }

  /** The entries one non-blank send appends: the user's text as typed, then the trimmed reply
      if the POST succeeded. */
  function Exchange(userInput: string, outcome: PostOutcome, sentAt: string, repliedAt: string): seq<ChatMessage> {
    match outcome
    case Replied(data) => [ChatMessage(userInput, true, sentAt), ChatMessage(Trim(data), false, repliedAt)]
    case PostFailed => [ChatMessage(userInput, true, sentAt)]
  }

  /** A send appends one user entry, and one reply entry exactly when the POST succeeded; the
      reply is already trimmed. */
  lemma {:induction false} ExchangeShape(userInput: string, outcome: PostOutcome, sentAt: string, repliedAt: string)
    ensures |Exchange(userInput, outcome, sentAt, repliedAt)| == (if outcome.Replied? then 2 else 1)
    ensures Exchange(userInput, outcome, sentAt, repliedAt)[0] == ChatMessage(userInput, true, sentAt)
    ensures outcome.Replied? ==> var reply := Exchange(userInput, outcome, sentAt, repliedAt)[1];
      !reply.isUser && reply.text == Trim(outcome.data) && Trim(reply.text) == reply.text
  {
    if outcome.Replied? {
      TrimIdempotent(outcome.data);
    }
  }

  /** The message list keeps its shape: the greeting first, then user entries that are never
      blank and replies that are trimmed. */
  predicate WellFormed(messages: seq<ChatMessage>) {
    && |messages| > 0
    && messages[0] == ChatMessage(Greeting, false, messages[0].time)
    && (forall i :: 1 <= i < |messages| && messages[i].isUser ==> Trim(messages[i].text) != "")
    && (forall i :: 1 <= i < |messages| && !messages[i].isUser ==> Trim(messages[i].text) == messages[i].text)
  }

  /** Appending the entries of a non-blank send keeps the list's shape. */
  lemma ExchangeKeepsWellFormed(messages: seq<ChatMessage>, userInput: string, outcome: PostOutcome,
                                sentAt: string, repliedAt: string)
    requires WellFormed(messages) && Trim(userInput) != ""
    ensures WellFormed(messages + Exchange(userInput, outcome, sentAt, repliedAt))
  {
    var e := Exchange(userInput, outcome, sentAt, repliedAt);
    var after := messages + e;
    ExchangeShape(userInput, outcome, sentAt, repliedAt);
    assert |after| == |messages| + |e| <= |messages| + 2;
    forall i | 1 <= i < |after|
      ensures after[i].isUser ==> Trim(after[i].text) != ""
      ensures !after[i].isUser ==> Trim(after[i].text) == after[i].text
    {
      if i < |messages| {
        assert after[i] == messages[i];
      } else if i == |messages| {
        assert after[i] == e[0];
      } else {
        assert i - |messages| == 1;
        assert after[i] == e[i - |messages|];
      }
    }
  }

  /** The Pinia store `chat`. */
  class Store {
    var messages: seq<ChatMessage>
    var userInput: string
    var loading: bool

    /** The list opens with the greeting; the user's entries are never blank and the replies are
        trimmed; no request is in flight between actions. */
    predicate Valid()
      reads this
    {
      WellFormed(messages) && !loading
    }

    /** The initial state, read at time `now`. */
    constructor (now: string)
      ensures Valid()
      ensures messages == [ChatMessage(Greeting, false, now)] && userInput == "" && !loading
    {
      messages := [ChatMessage(Greeting, false, now)];
      userInput := "";
      loading := false;
    }

    /** `sendMessage`: a blank input changes nothing and posts nothing; otherwise the input is
        appended as typed and posted, a successful reply is appended trimmed, a failure is
        swallowed, and the loading flag and the input are cleared. Returns the body posted. */
    method SendMessage(outcome: PostOutcome, sentAt: string, repliedAt: string) returns (posted: Option<ChatRequest>)
      requires Valid()
      modifies this
      ensures Valid()
      ensures Trim(old(userInput)) == "" ==>
                && posted == None
                && messages == old(messages) && userInput == old(userInput) && loading == old(loading)
      ensures Trim(old(userInput)) != "" ==>
                && posted == Some(StoreRequestBody(old(userInput)))
                && messages == old(messages) + Exchange(old(userInput), outcome, sentAt, repliedAt)
                && userInput == "" && !loading
    {
      if Trim(userInput) == "" {
        return None;
      }
      ghost var before := messages;
      messages := messages + [ChatMessage(userInput, true, sentAt)];
      loading := true;
      posted := Some(StoreRequestBody(userInput));
      if outcome.Replied? {
        messages := messages + [ChatMessage(Trim(outcome.data), false, repliedAt)];
        assert messages == before + [ChatMessage(userInput, true, sentAt), ChatMessage(Trim(outcome.data), false, repliedAt)];
      }
      assert messages == before + Exchange(userInput, outcome, sentAt, repliedAt);
      ExchangeKeepsWellFormed(before, userInput, outcome, sentAt, repliedAt);
      loading := false;
      userInput := "";
    }
  }
}
