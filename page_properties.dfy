/** Properties of the chat page that relate several handlers: what holds along any sequence of user
    actions, what a reload restores, and two concrete scenarios. */
module PageProperties {
  import opened Wrappers
  import opened ChatTypes
  import opened JsText
  import opened DocumentRegistry
  import opened PageModel

  /** One thing that can happen to a mounted page: a handler run to completion with the outcomes
      of its requests, typing into the input field, or a list refresh landing. */
  datatype Event =
    | Type(text: string)
    | SelectSession(id: int, history: Fetch<seq<Message>>)
    | StartNewChat
    | UploadFile(file: Option<string>, docId: int, noticeId: int, time: string,
                 outcome: Fetch<int>, refresh: Fetch<seq<ServerDocument>>)
    | SendMessage(userId: int, userTime: string, aiId: int, aiTime: string,
                  reply: Fetch<ChatReply>, sessionsRefresh: Fetch<seq<ChatSession>>)
    | DeleteDocument(filename: string, confirmed: bool, noticeId: int, time: string,
                     deleted: Fetch<()>, docsRefresh: Fetch<seq<ServerDocument>>)
    | RefreshSessions(sessionsOutcome: Fetch<seq<ChatSession>>)
    | RefreshDocuments(documentsOutcome: Fetch<seq<ServerDocument>>)

  function Step(s: PageState, e: Event): PageState {
    match e
    case Type(text) => s.(input := text)
    case SelectSession(id, history) => LoadSession(s, id, history)
    case StartNewChat => NewChat(s)
    case UploadFile(file, docId, noticeId, time, outcome, refresh) =>
      Upload(s, file, docId, noticeId, time, outcome, refresh)
    case SendMessage(userId, userTime, aiId, aiTime, reply, sessionsRefresh) =>
      Send(s, userId, userTime, aiId, aiTime, reply, sessionsRefresh)
    case DeleteDocument(filename, confirmed, noticeId, time, deleted, docsRefresh) =>
      Delete(s, filename, confirmed, noticeId, time, deleted, docsRefresh)
    case RefreshSessions(outcome) => FetchSessions(s, outcome)
    case RefreshDocuments(outcome) => FetchDocuments(s, outcome)
  }

  function Run(s: PageState, events: seq<Event>): PageState
    decreases |events|
  {
    if events == [] then s else Run(Step(s, events[0]), events[1..])
  }

  /** Between handlers: the active and persisted session ids agree and no request is in flight. */
  predicate Consistent(s: PageState) {
    Synced(s) && !s.isUploading && !s.isThinking
  }

  lemma StepKeepsConsistent(s: PageState, e: Event)
    requires Consistent(s)
    ensures Consistent(Step(s, e))
  {
  }

  lemma {:induction false} RunKeepsConsistent(s: PageState, events: seq<Event>)
    requires Consistent(s)
    ensures Consistent(Run(s, events))
    decreases |events|
  {
    if events != [] {
      StepKeepsConsistent(s, events[0]);
      RunKeepsConsistent(Step(s, events[0]), events[1..]);
    }
  }

  /** Whatever happens after the page mounts, the active session is the persisted one and no
      handler is left half done. */
  lemma PageStaysConsistent(stored: Option<int>, sessionsOutcome: Fetch<seq<ChatSession>>,
                            documentsOutcome: Fetch<seq<ServerDocument>>, history: Fetch<seq<Message>>,
                            events: seq<Event>)
    ensures Consistent(Run(Mount(Initial(stored), sessionsOutcome, documentsOutcome, history), events))
  {
    RunKeepsConsistent(Mount(Initial(stored), sessionsOutcome, documentsOutcome, history), events);
  }

  lemma StepKeepsTranscript(s: PageState, e: Event)
    requires s.messages != []
    ensures Step(s, e).messages != []
  {
  }

  /** Once the transcript holds a message, no sequence of handlers empties it. */
  lemma {:induction false} RunKeepsTranscript(s: PageState, events: seq<Event>)
    requires s.messages != []
    ensures Run(s, events).messages != []
    decreases |events|
  {
    if events != [] {
      StepKeepsTranscript(s, events[0]);
      RunKeepsTranscript(Step(s, events[0]), events[1..]);
    }
  }

  /** Restoring a persisted id whose history request gets a non-ok response leaves the transcript
      empty and keeps the id persisted: neither the welcome fallback nor the discarding of the stale
      id happens on that path. */
  lemma RestoreOnNotOkKeepsEmptyTranscript(id: int, sessionsOutcome: Fetch<seq<ChatSession>>,
                                           documentsOutcome: Fetch<seq<ServerDocument>>)
    ensures var t := Mount(Initial(Some(id)), sessionsOutcome, documentsOutcome, NotOk);
      t.messages == [] && t.sessionId == Some(id) && t.stored == Some(id)
  {
  }

  /** Input that is only whitespace is ignored by handleSend. */
  lemma SendIgnoresBlankInput(s: PageState, userId: int, userTime: string, aiId: int, aiTime: string,
                              reply: Fetch<ChatReply>, sessionsRefresh: Fetch<seq<ChatSession>>)
    requires IsBlank(s.input)
    ensures Send(s, userId, userTime, aiId, aiTime, reply, sessionsRefresh) == s
  {
  }

  /** Input with a non-whitespace character grows the transcript by exactly the user message and
      one assistant message. */
  lemma SendAppendsTwoMessages(s: PageState, userId: int, userTime: string, aiId: int, aiTime: string,
                               reply: Fetch<ChatReply>, sessionsRefresh: Fetch<seq<ChatSession>>)
    requires !IsBlank(s.input)
    ensures var t := Send(s, userId, userTime, aiId, aiTime, reply, sessionsRefresh);
      && t.input == []
      && t.messages == s.messages + [Message(userId, User, s.input, userTime, None), Answer(reply, aiId, aiTime)]
      && t.documents == s.documents
  {
  }

  /** A failed upload whose id is new to the registry adds exactly its `error` entry. */
  lemma FailedUploadAddsOnlyErrorEntry(s: PageState, name: string, docId: int, noticeId: int, time: string,
                                       outcome: Fetch<int>, refresh: Fetch<seq<ServerDocument>>)
    requires !outcome.Ok? && !HasId(s.documents, docId)
    ensures Upload(s, Some(name), docId, noticeId, time, outcome, refresh).documents ==
      s.documents + [DocumentItem(docId, name, Error)]
  {
    SettledWithFreshId(s.documents, docId, name, Error,
                       Upload(s, Some(name), docId, noticeId, time, outcome, refresh).documents);
  }

  /** A successful upload whose refresh fails adds exactly its `indexed` entry. */
  lemma IndexedUploadAddsOnlyItsEntry(s: PageState, name: string, docId: int, noticeId: int, time: string,
                                      chunks: int, refresh: Fetch<seq<ServerDocument>>)
    requires !refresh.Ok? && !HasId(s.documents, docId)
    ensures Upload(s, Some(name), docId, noticeId, time, Ok(chunks), refresh).documents ==
      s.documents + [DocumentItem(docId, name, Indexed)]
  {
    SettledWithFreshId(s.documents, docId, name, Indexed,
                       Upload(s, Some(name), docId, noticeId, time, Ok(chunks), refresh).documents);
  }

  /** Deleting splits over any cut of the registry: the surviving entries keep their order. */
  lemma DeleteKeepsOrder(s: PageState, filename: string, noticeId: int, time: string,
                         before: seq<DocumentItem>, after: seq<DocumentItem>)
    requires s.documents == before + after
    ensures Delete(s, filename, true, noticeId, time, Ok(()), NotOk).documents ==
      RemoveByName(before, filename) + RemoveByName(after, filename)
  {
    RemoveByNameAppend(before, after, filename);
  }

  /** A session id adopted by handleSend is what the page opens after a reload: it is persisted as
      text that `parseInt` reads back as the same id, and the mount effect loads its history. */
  lemma AdoptedSessionSurvivesReload(s: PageState, userId: int, userTime: string, aiId: int, aiTime: string,
                                     reply: Fetch<ChatReply>, sessionsRefresh: Fetch<seq<ChatSession>>,
                                     sessionsOutcome: Fetch<seq<ChatSession>>,
                                     documentsOutcome: Fetch<seq<ServerDocument>>, history: seq<Message>)
    requires !IsBlank(s.input) && Adopts(s.sessionId, reply) && history != []
    ensures var t := Send(s, userId, userTime, aiId, aiTime, reply, sessionsRefresh);
      && t.stored == reply.body.sessionId
      && ParseInt(IntToString(t.stored.value)) == t.stored
      && var r := Mount(Initial(t.stored), sessionsOutcome, documentsOutcome, Ok(history));
         r.sessionId == reply.body.sessionId && r.messages == history
  {
    assert Trim(s.input) != [];
    ParseIntOfIntToString(reply.body.sessionId.value);
  }

  /** After a new chat, a reload opens the welcome message with no active session, whatever the
      backend answers. */
  lemma NewChatSurvivesReload(s: PageState, sessionsOutcome: Fetch<seq<ChatSession>>,
                              documentsOutcome: Fetch<seq<ServerDocument>>, history: Fetch<seq<Message>>)
    ensures var r := Mount(Initial(NewChat(s).stored), sessionsOutcome, documentsOutcome, history);
      r.messages == [WelcomeMsg] && r.sessionId == None && r.stored == None
  {
  }

  /** A first question with no active session: the reply's session id 42 is adopted and persisted
      and the answer is appended with its sources. */
  lemma FirstQuestionScenario(userId: int, userTime: string, aiId: int, aiTime: string)
    ensures var s := Initial(None).(input := "What is the refund policy?", isMounted := true,
                                     messages := [WelcomeMsg]);
      var reply := Ok(ChatReply("Refunds are...", Some(["policy.pdf"]), Some(42)));
      var t := Send(s, userId, userTime, aiId, aiTime, reply, NotOk);
      && t.sessionId == Some(42) && t.stored == Some(42)
      && t.messages == [WelcomeMsg, Message(userId, User, "What is the refund policy?", userTime, None),
                        Message(aiId, Ai, "Refunds are...", aiTime, Some(["policy.pdf"]))]
  {
    var input := "What is the refund policy?";
    assert !IsJsWhitespace(input[0]);
    assert Trim(input) != [];
  }
}
