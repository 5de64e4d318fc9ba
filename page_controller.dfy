/** The chat page component (frontend/src/app/page.tsx) as an object: one field per `useState`
    variable plus the persisted `nexus_session_id` key, and one method per handler that updates
    those fields in the order the handler does. Each method is proved to land exactly on the
    transition of the same name in `PageModel`. */
module PageController {
  import opened Wrappers
  import opened ChatTypes
  import JsText
  import DocumentRegistry
  import PageModel

  class ChatPage {
    var input: string
    var isMounted: bool
    var isUploading: bool
    var isThinking: bool
    var sessionId: Option<int>
    var messages: seq<Message>
    var documents: seq<DocumentItem>
    var sessions: seq<ChatSession>
    /** The `nexus_session_id` entry of `localStorage`, absent when removed. */
    var stored: Option<int>

    function Snapshot(): PageModel.PageState
      reads this
    {
      PageModel.PageState(input, isMounted, isUploading, isThinking, sessionId, messages, documents,
                          sessions, stored)
    }

    /** The first render: every `useState` at its initial value, `localStorage` as the last visit
        left it. */
    constructor (persisted: Option<int>)
      ensures Snapshot() == PageModel.Initial(persisted)
    {
      input := "";
      isMounted := false;
      isUploading := false;
      isThinking := false;
      sessionId := None;
      messages := [];
      documents := [];
      sessions := [];
      stored := persisted;
    }

    /** `setInput`, called by the input field on every keystroke. */
    method SetInput(text: string)
      modifies this
      ensures Snapshot() == old(Snapshot()).(input := text)
    {
      input := text;
    }

    method FetchSessions(outcome: PageModel.Fetch<seq<ChatSession>>)
      modifies this
      ensures Snapshot() == PageModel.FetchSessions(old(Snapshot()), outcome)
    {
      if outcome.Ok? {
        sessions := outcome.body;
      }
    }

    method FetchDocuments(outcome: PageModel.Fetch<seq<DocumentRegistry.ServerDocument>>)
      modifies this
      ensures Snapshot() == PageModel.FetchDocuments(old(Snapshot()), outcome)
    {
      if outcome.Ok? {
        documents := DocumentRegistry.FromServer(outcome.body);
      }
    }

    method LoadSession(id: int, history: PageModel.Fetch<seq<Message>>)
      modifies this
      ensures Snapshot() == PageModel.LoadSession(old(Snapshot()), id, history)
    {
      sessionId := Some(id);
      stored := Some(id);
      match history {
        case Ok(h) =>
          messages := if |h| > 0 then h else [PageModel.WelcomeMsg];
        case NotOk =>
        case Threw =>
          messages := [PageModel.WelcomeMsg];
      }
    }

    method HandleNewChat()
      modifies this
      ensures Snapshot() == PageModel.NewChat(old(Snapshot()))
    {
      sessionId := None;
      messages := [PageModel.WelcomeMsg];
      stored := None;
    }

    /** The mount effect, with the outcomes of its three requests. */
    method Mount(sessionsOutcome: PageModel.Fetch<seq<ChatSession>>,
                 documentsOutcome: PageModel.Fetch<seq<DocumentRegistry.ServerDocument>>,
                 history: PageModel.Fetch<seq<Message>>)
      modifies this
      ensures Snapshot() == PageModel.Mount(old(Snapshot()), sessionsOutcome, documentsOutcome, history)
    {
      isMounted := true;
      FetchSessions(sessionsOutcome);
      FetchDocuments(documentsOutcome);
      Restore(history);
    }

    /** The restore step of the mount effect. */
    method Restore(history: PageModel.Fetch<seq<Message>>)
      modifies this
      ensures Snapshot() == PageModel.Restore(old(Snapshot()), history)
    {
      var savedId := stored;
      if savedId.Some? {
        LoadSession(savedId.value, history);
      } else {
        messages := [PageModel.WelcomeMsg];
      }
    }

    method HandleFileUpload(file: Option<string>, docId: int, noticeId: int, time: string,
                            outcome: PageModel.Fetch<int>,
                            refresh: PageModel.Fetch<seq<DocumentRegistry.ServerDocument>>)
      modifies this
      ensures Snapshot() == PageModel.Upload(old(Snapshot()), file, docId, noticeId, time, outcome, refresh)
    {
      if file.None? {
        return;
      }
      var name := file.value;
      isUploading := true;
      documents := documents + [DocumentItem(docId, name, Processing)];
      if outcome.Ok? {
        documents := DocumentRegistry.SetStatusById(documents, docId, Indexed);
        messages := messages + [PageModel.Notice(noticeId, PageModel.UploadOkText(name, outcome.body), time)];
        FetchDocuments(refresh);
      } else {
        documents := DocumentRegistry.SetStatusById(documents, docId, Error);
        messages := messages + [PageModel.Notice(noticeId, PageModel.UploadErrorText(name), time)];
      }
      isUploading := false;
    }

    method HandleSend(userId: int, userTime: string, aiId: int, aiTime: string,
                      reply: PageModel.Fetch<PageModel.ChatReply>,
                      sessionsRefresh: PageModel.Fetch<seq<ChatSession>>)
      modifies this
      ensures Snapshot() == PageModel.Send(old(Snapshot()), userId, userTime, aiId, aiTime, reply, sessionsRefresh)
    {
      if JsText.Trim(input) == [] {
        return;
      }
      Submit(userId, userTime, aiId, aiTime, reply, sessionsRefresh);
    }

    /** handleSend past its guard. */
    method Submit(userId: int, userTime: string, aiId: int, aiTime: string,
                  reply: PageModel.Fetch<PageModel.ChatReply>,
                  sessionsRefresh: PageModel.Fetch<seq<ChatSession>>)
      modifies this
      ensures Snapshot() == PageModel.Submit(old(Snapshot()), userId, userTime, aiId, aiTime, reply, sessionsRefresh)
    {
      var userText := input;
      input := "";
      isThinking := true;
      messages := messages + [Message(userId, User, userText, userTime, None)];
      match reply {
        case Ok(data) =>
          AdoptSession(reply, sessionsRefresh);
          messages := messages + [Message(aiId, Ai, data.response, aiTime, data.sources)];
        case NotOk =>
          messages := messages + [Message(aiId, Ai, PageModel.SendErrorText, aiTime, None)];
        case Threw =>
          messages := messages + [Message(aiId, Ai, PageModel.SendErrorText, aiTime, None)];
      }
      isThinking := false;
    }

    /** The adoption of a server-assigned session id inside handleSend. */
    method AdoptSession(reply: PageModel.Fetch<PageModel.ChatReply>,
                        sessionsRefresh: PageModel.Fetch<seq<ChatSession>>)
      modifies this
      ensures Snapshot() == PageModel.Adopt(old(Snapshot()), reply, sessionsRefresh)
    {
      if reply.Ok? {
        var returned := reply.body.sessionId;
        if returned.Some? && returned.value != 0 && returned != sessionId {
          sessionId := returned;
          stored := returned;
          FetchSessions(sessionsRefresh);
        }
      }
    }

    method HandleDeleteDocument(filename: string, confirmed: bool, noticeId: int, time: string,
                                outcome: PageModel.Fetch<()>,
                                refresh: PageModel.Fetch<seq<DocumentRegistry.ServerDocument>>)
      modifies this
      ensures Snapshot() == PageModel.Delete(old(Snapshot()), filename, confirmed, noticeId, time, outcome, refresh)
    {
      if !confirmed {
        return;
      }
      documents := DocumentRegistry.RemoveByName(documents, filename);
      if outcome.Ok? {
        messages := messages + [PageModel.Notice(noticeId, PageModel.DeleteText(filename), time)];
      } else {
        FetchDocuments(refresh);
      }
    }
  }
}
