/** The chat page's state and the effect of each of its handlers (frontend/src/app/page.tsx), as
    pure transitions from the state before a handler runs to the state after it has settled.
    Everything the handlers obtain from the browser is an argument: the outcome of each `fetch`,
    the `Date.now()` ids, the `toLocaleTimeString` stamps and the answer to `confirm`. */
module PageModel {
  import opened Wrappers
  import opened ChatTypes
  import opened JsText
  import opened DocumentRegistry

  /** How one `fetch` (with its `res.json()`) turned out: a successful response with its parsed
      body, a response whose status is not ok, or an exception (network failure, bad JSON). */
  datatype Fetch<+T> = Ok(body: T) | NotOk | Threw

  /** The JSON body of `POST /chat/message`. */
  datatype ChatReply = ChatReply(response: string, sources: Option<seq<string>>, sessionId: Option<int>)

  /** Every piece of page state, plus the persisted `nexus_session_id` key (`stored`). */
  datatype PageState = PageState(
    input: string,
    isMounted: bool,
    isUploading: bool,
    isThinking: bool,
    sessionId: Option<int>,
    messages: seq<Message>,
    documents: seq<DocumentItem>,
    sessions: seq<ChatSession>,
    stored: Option<int>)

  const WelcomeText: string :=
    "**Nexus RAG v3.3**\n\nBienvenido. Selecciona un chat del historial o sube un documento para empezar."

  const WelcomeMsg: Message := Message(0, Ai, WelcomeText, "09:00 AM", None)

  const SendErrorText: string := "\U{26A0}\U{FE0F} **Error:** No pude conectar con el cerebro."

  const UploadOkLead: string := "\U{2705} **Ingesta completada:** _"
  const UploadErrorLead: string := "\U{274C} Error procesando \""
  const DeleteLead: string := "\U{1F5D1}\U{FE0F}" + " **Memoria eliminada:** He olvidado el contenido de _"

  const UploadOkMid: string := "_\nBase de datos actualizada con **"

  /** The notice of a completed upload: marked with a check mark, it names the file and then the
      number of stored chunks. */
  function UploadOkText(name: string, chunks: int): (r: string)
    ensures |r| > |UploadOkLead| + |name| && r[|UploadOkLead|..|UploadOkLead| + |name|] == name
    ensures var k := |UploadOkLead| + |name| + |UploadOkMid|;
      |r| > k + |IntToString(chunks)| && r[k..k + |IntToString(chunks)|] == IntToString(chunks)
    ensures r[0] == '\U{2705}'
  {
    UploadOkLead + name + UploadOkMid + IntToString(chunks) + "** nuevos vectores."
  }

  /** The notice of a failed upload: marked with a cross, it names the file. */
  function UploadErrorText(name: string): (r: string)
    ensures |r| > |UploadErrorLead| + |name| && r[|UploadErrorLead|..|UploadErrorLead| + |name|] == name
    ensures r[0] == '\U{274C}'
  {
    UploadErrorLead + name + "\"."
  }

  /** The notice of a deleted document: marked with a waste basket, it names the file. */
  function DeleteText(filename: string): (r: string)
    ensures |r| > |DeleteLead| + |filename| && r[|DeleteLead|..|DeleteLead| + |filename|] == filename
    ensures r[0] == '\U{1F5D1}'
  {
    DeleteLead + filename + "_."
  }

  /** An assistant-role notice narrating an upload or delete outcome. */
  function Notice(id: int, content: string, timestamp: string): Message {
    Message(id, Ai, content, timestamp, None)
  }

  /** The page as React first renders it; only the persisted key outlives a reload. */
  function Initial(stored: Option<int>): (t: PageState)
    ensures t.input == [] && !t.isMounted && !t.isUploading && !t.isThinking
    ensures t.sessionId == None && t.messages == [] && t.documents == [] && t.sessions == []
    ensures t.stored == stored
    ensures Synced(t) <==> stored.None?
  {
    PageState("", false, false, false, None, [], [], [], stored)
  }

  /** The active session id and the persisted key agree. */
  predicate Synced(s: PageState) {
    s.sessionId == s.stored
  }

  /** JavaScript truthiness of the reply's `session_id`: `null`, a missing field and `0` are false. */
  predicate Truthy(v: Option<int>)
    ensures !Truthy(v) <==> (v == None || v == Some(0))
  {
    v.Some? && v.value != 0
  }

  /** The condition at page.tsx:175 under which handleSend adopts the server's session id. */
  predicate Adopts(current: Option<int>, reply: Fetch<ChatReply>)
    ensures Adopts(current, reply) ==> reply.Ok? && reply.body.sessionId.Some?
    ensures reply.Ok? && reply.body.sessionId == Some(0) ==> !Adopts(current, reply)
    ensures reply.Ok? && reply.body.sessionId == current ==> !Adopts(current, reply)
    ensures (reply.Ok? && reply.body.sessionId.Some? && reply.body.sessionId.value != 0 &&
             reply.body.sessionId != current) ==> Adopts(current, reply)
  {
    reply.Ok? && Truthy(reply.body.sessionId) && reply.body.sessionId != current
  }

  /** fetchSessions: the sidebar list becomes the server's list on an ok response, otherwise
      nothing changes. */
  function FetchSessions(s: PageState, outcome: Fetch<seq<ChatSession>>): (t: PageState)
    ensures outcome.Ok? ==> t.sessions == outcome.body
    ensures !outcome.Ok? ==> t == s
    ensures t == s.(sessions := t.sessions)
  {
    if outcome.Ok? then s.(sessions := outcome.body) else s
  }

  /** fetchDocuments: on an ok response the registry becomes the server's list, entry for entry,
      every one `indexed`; otherwise nothing changes. */
  function FetchDocuments(s: PageState, outcome: Fetch<seq<ServerDocument>>): (t: PageState)
    ensures outcome.Ok? ==> (
      && |t.documents| == |outcome.body|
      && forall i :: 0 <= i < |outcome.body| ==>
           t.documents[i] == DocumentItem(outcome.body[i].id, outcome.body[i].filename, Indexed))
    ensures !outcome.Ok? ==> t == s
    ensures t == s.(documents := t.documents)
  {
    if outcome.Ok? then s.(documents := FromServer(outcome.body)) else s
  }

  /** loadSession(id): the id is made active and persisted whatever the history request does; the
      transcript becomes the history, the welcome message when the history is empty or the request
      threw, and stays as it was on a non-ok response. */
  function LoadSession(s: PageState, id: int, history: Fetch<seq<Message>>): (t: PageState)
    ensures t.sessionId == Some(id) && t.stored == Some(id)
    ensures history.Ok? && history.body != [] ==> t.messages == history.body
    ensures (history.Ok? && history.body == []) || history.Threw? ==> t.messages == [WelcomeMsg]
    ensures history.NotOk? ==> t.messages == s.messages
    ensures t == s.(sessionId := t.sessionId, stored := t.stored, messages := t.messages)
    ensures s.messages != [] ==> t.messages != []
  {
    var selected := s.(sessionId := Some(id), stored := Some(id));
    match history
    case Ok(h) => selected.(messages := if |h| > 0 then h else [WelcomeMsg])
    case NotOk => selected
    case Threw => selected.(messages := [WelcomeMsg])
  }

  /** handleNewChat: no active session, nothing persisted, and only the welcome message. */
  function NewChat(s: PageState): (t: PageState)
    ensures t.sessionId == None && t.stored == None && t.messages == [WelcomeMsg]
    ensures t == s.(sessionId := t.sessionId, stored := t.stored, messages := t.messages)
  {
    s.(sessionId := None, messages := [WelcomeMsg], stored := None)
  }

  /** The restore step of the mount effect: a persisted id is loaded exactly as if it had been
      selected; without one the transcript is the welcome message and the session stays as it is. */
  function Restore(s: PageState, history: Fetch<seq<Message>>): (t: PageState)
    ensures s.stored.Some? ==> t == LoadSession(s, s.stored.value, history)
    ensures s.stored.None? ==> t.messages == [WelcomeMsg] && t.sessionId == s.sessionId && t.stored == None
    ensures t == s.(sessionId := t.sessionId, stored := t.stored, messages := t.messages)
  {
    match s.stored
    case Some(id) => LoadSession(s, id, history)
    case None => s.(messages := [WelcomeMsg])
  }

  /** The mount effect: mark the page mounted, refresh the session and document lists, then restore
      the persisted session. The three requests touch disjoint parts of the state, so the order in
      which their responses land does not matter. */
  function Mount(s: PageState, sessionsOutcome: Fetch<seq<ChatSession>>,
                 documentsOutcome: Fetch<seq<ServerDocument>>, history: Fetch<seq<Message>>): (t: PageState)
    ensures t.isMounted
    ensures t.sessions == if sessionsOutcome.Ok? then sessionsOutcome.body else s.sessions
    ensures t.documents == if documentsOutcome.Ok? then FromServer(documentsOutcome.body) else s.documents
    ensures var r := Restore(s, history);
      t.sessionId == r.sessionId && t.stored == r.stored && t.messages == r.messages
    ensures s.sessionId == None ==> Synced(t)
    ensures t.input == s.input && t.isUploading == s.isUploading && t.isThinking == s.isThinking
  {
    var mounted := s.(isMounted := true);
    Restore(FetchDocuments(FetchSessions(mounted, sessionsOutcome), documentsOutcome), history)
  }

  /** handleFileUpload. Without a file nothing happens. With one, a `processing` entry with the
      fresh id is appended, then moved to `indexed` or `error`, exactly one notice is appended and
      the upload flag is cleared; after a successful upload the registry is refreshed from the
      server, which replaces it when that request is ok. */
  function Upload(s: PageState, file: Option<string>, docId: int, noticeId: int, time: string,
                  outcome: Fetch<int>, refresh: Fetch<seq<ServerDocument>>): (t: PageState)
    ensures file.None? ==> t == s
    ensures file.Some? ==> !t.isUploading
    ensures file.Some? && outcome.Ok? ==>
      t.messages == s.messages + [Notice(noticeId, UploadOkText(file.value, outcome.body), time)]
    ensures file.Some? && !outcome.Ok? ==>
      t.messages == s.messages + [Notice(noticeId, UploadErrorText(file.value), time)]
    ensures file.Some? && !outcome.Ok? ==> Settled(s.documents, docId, file.value, Error, t.documents)
    ensures file.Some? && outcome.Ok? && !refresh.Ok? ==>
      Settled(s.documents, docId, file.value, Indexed, t.documents)
    ensures file.Some? && outcome.Ok? && refresh.Ok? ==> t.documents == FromServer(refresh.body)
    ensures t == s.(documents := t.documents, messages := t.messages, isUploading := t.isUploading)
    ensures s.messages <= t.messages
  {
    match file
    case None => s
    case Some(name) =>
      var optimistic := s.documents + [DocumentItem(docId, name, Processing)];
      if outcome.Ok? then
        SettleAfterAppend(s.documents, docId, name, Indexed);
        var settled := s.(documents := SetStatusById(optimistic, docId, Indexed),
                          messages := s.messages + [Notice(noticeId, UploadOkText(name, outcome.body), time)],
                          isUploading := false);
        FetchDocuments(settled, refresh)
      else
        SettleAfterAppend(s.documents, docId, name, Error);
        s.(documents := SetStatusById(optimistic, docId, Error),
           messages := s.messages + [Notice(noticeId, UploadErrorText(name), time)],
           isUploading := false)
  }

  /** The assistant message handleSend appends: the answer and its sources on success, the fixed
      error notice otherwise. */
  function Answer(reply: Fetch<ChatReply>, aiId: int, aiTime: string): (m: Message)
    ensures m.id == aiId && m.role == Ai && m.timestamp == aiTime
    ensures reply.Ok? ==> m.content == reply.body.response && m.sources == reply.body.sources
    ensures !reply.Ok? ==> m.content == SendErrorText && m.sources == None
  {
    match reply
    case Ok(data) => Message(aiId, Ai, data.response, aiTime, data.sources)
    case _ => Message(aiId, Ai, SendErrorText, aiTime, None)
  }

  /** Session adoption (page.tsx:175-179): under `Adopts`, the reply's id becomes the active and the
      persisted one and the session list is refreshed; otherwise nothing changes. */
  function Adopt(s: PageState, reply: Fetch<ChatReply>, sessionsRefresh: Fetch<seq<ChatSession>>): (t: PageState)
    ensures Adopts(s.sessionId, reply) ==>
      t.sessionId == reply.body.sessionId && t.stored == reply.body.sessionId &&
      t.sessions == (if sessionsRefresh.Ok? then sessionsRefresh.body else s.sessions)
    ensures !Adopts(s.sessionId, reply) ==> t == s
    ensures t == s.(sessionId := t.sessionId, stored := t.stored, sessions := t.sessions)
  {
    if Adopts(s.sessionId, reply)
    then FetchSessions(s.(sessionId := reply.body.sessionId, stored := reply.body.sessionId), sessionsRefresh)
    else s
  }

  /** The body of handleSend past its guard: the input is cleared, the untrimmed text is appended
      as a user message, then exactly one assistant message, the `Answer`; the session id is
      adopted only under the condition of `Adopts`; the thinking flag ends cleared. */
  function Submit(s: PageState, userId: int, userTime: string, aiId: int, aiTime: string,
                  reply: Fetch<ChatReply>, sessionsRefresh: Fetch<seq<ChatSession>>): (t: PageState)
    ensures t.input == [] && !t.isThinking
    ensures t.messages == s.messages + [Message(userId, User, s.input, userTime, None), Answer(reply, aiId, aiTime)]
    ensures Adopts(s.sessionId, reply) ==>
      t.sessionId == reply.body.sessionId && t.stored == reply.body.sessionId &&
      t.sessions == (if sessionsRefresh.Ok? then sessionsRefresh.body else s.sessions)
    ensures !Adopts(s.sessionId, reply) ==>
      t.sessionId == s.sessionId && t.stored == s.stored && t.sessions == s.sessions
    ensures t == s.(input := t.input, isThinking := t.isThinking, messages := t.messages,
                    sessionId := t.sessionId, stored := t.stored, sessions := t.sessions)
  {
    var sent := s.(input := [], messages := s.messages + [Message(userId, User, s.input, userTime, None)]);
    var adopted := Adopt(sent, reply, sessionsRefresh);
    adopted.(messages := adopted.messages + [Answer(reply, aiId, aiTime)], isThinking := false)
  }

  /** handleSend: input that is blank by `trim` changes nothing; any other input is submitted. */
  function Send(s: PageState, userId: int, userTime: string, aiId: int, aiTime: string,
                reply: Fetch<ChatReply>, sessionsRefresh: Fetch<seq<ChatSession>>): (t: PageState)
    ensures Trim(s.input) == [] ==> t == s
    ensures Trim(s.input) != [] ==> t == Submit(s, userId, userTime, aiId, aiTime, reply, sessionsRefresh)
    ensures s.messages <= t.messages
  {
    if Trim(s.input) == [] then s else Submit(s, userId, userTime, aiId, aiTime, reply, sessionsRefresh)
  }

  /** handleDeleteDocument. Declining the confirmation changes nothing. Otherwise every entry
      named `filename` is removed at once; on success one notice is appended, on failure no message
      is and the registry is refreshed from the server, which replaces it when that request is ok. */
  function Delete(s: PageState, filename: string, confirmed: bool, noticeId: int, time: string,
                  outcome: Fetch<()>, refresh: Fetch<seq<ServerDocument>>): (t: PageState)
    ensures !confirmed ==> t == s
    ensures confirmed && outcome.Ok? ==>
      t.documents == RemoveByName(s.documents, filename) &&
      t.messages == s.messages + [Notice(noticeId, DeleteText(filename), time)]
    ensures confirmed && !outcome.Ok? ==>
      t.messages == s.messages &&
      t.documents == if refresh.Ok? then FromServer(refresh.body) else RemoveByName(s.documents, filename)
    ensures t == s.(documents := t.documents, messages := t.messages)
    ensures s.messages <= t.messages
  {
    if !confirmed then s
    else
      var removed := s.(documents := RemoveByName(s.documents, filename));
      if outcome.Ok? then removed.(messages := removed.messages + [Notice(noticeId, DeleteText(filename), time)])
      else FetchDocuments(removed, refresh)
  }
}
