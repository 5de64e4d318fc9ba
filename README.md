# Nexus RAG chat page: a Dafny model of its state controller

This project models the client-side state controller of the Nexus RAG chat page
(`frontend/src/app/page.tsx`). The page keeps these pieces of React state:

- `input`, `isMounted`, `isUploading`, `isThinking`;
- the active `sessionId`;
- the transcript `messages`;
- the document registry `documents`;
- the sidebar's `sessions`.

It also keeps one `localStorage` key, `nexus_session_id`. Its handlers load a past conversation,
start a new one, upload and delete documents, and send a question. Each handler changes that
state in a fixed way that depends on how its HTTP requests turned out.

The project has two layers, and each handler appears in both:

- **`PageModel`**: a pure transition from the state before the handler to the state after it settles.
  Each transition's contract says what the handler promises.
- **`PageController.ChatPage`**: a class with one field per piece of state. Its methods update the
  fields in the handler's order. Each method is proved to land exactly on the matching transition.

Everything the handlers get from the browser is a parameter:

- each `fetch` outcome, as `Fetch<T> = Ok(body) | NotOk | Threw`;
- the `Date.now()` ids;
- the `toLocaleTimeString` stamps;
- the answer to `confirm`.

Modules:

- `Wrappers`: `Option`.
- `ChatTypes`: `Message`, `DocumentItem`, `DocStatus`, `ChatSession` (`frontend/src/types/chat.ts`).
- `JsText`: the JavaScript builtins the page relies on: `trim`, integer `toString` and base-10 `parseInt`.
- `DocumentRegistry`: the list updaters applied to `documents`.
- `PageModel`: the page state and one transition per handler.
- `PageProperties`: properties that span several handlers. It includes an event type and a `Run` over
  any sequence of user actions.
- `PageController`: the `ChatPage` class.

The code has no streaming decoder. `handleSend` reads one JSON body with `response`, `sources` and
`session_id`, so the model reads one reply too. Where the code's behaviour may surprise a reader,
the model follows the code:

- `loadSession` persists the id before it fetches anything and never clears it on failure.
- A non-ok history response leaves the transcript as it was. At mount time that transcript is
  empty (`PageProperties.RestoreOnNotOkKeepsEmptyTranscript`).
- When a delete fails and the registry refresh also fails, the optimistic removal stays.
- Session switching is not blocked while a send is in flight.

## Model

| member | source | states |
|---|---|---|
| `JsText.TrimStart` | frontend/src/app/page.tsx:150 | the result is a suffix of the input, everything cut off is whitespace, and it does not start with whitespace |
| `JsText.TrimEnd` | frontend/src/app/page.tsx:150 | the result is a prefix of the input, everything cut off is whitespace, and it does not end with whitespace |
| `JsText.Trim` | frontend/src/app/page.tsx:150 | `input.trim()` is empty exactly when every character of the input is JavaScript whitespace; otherwise it neither starts nor ends with whitespace |
| `JsText.NatToDigits` | frontend/src/app/page.tsx:128 | decimal digits only, at least one, with no leading zero except for 0 itself |
| `JsText.IntToString` | frontend/src/app/page.tsx:60 | `id.toString()` is never empty (so the stored key is truthy) and starts with a digit or a minus sign, the minus sign exactly when the id is negative |
| `JsText.DigitRun` | frontend/src/app/page.tsx:89 | the longest prefix made only of digits |
| `JsText.ParseDigits` | frontend/src/app/page.tsx:89 | no value (NaN) exactly when the text does not start with a digit, otherwise a non-negative value |
| `JsText.ParseSigned` | frontend/src/app/page.tsx:89 | no value (NaN) exactly when no digit follows the optional sign; otherwise the magnitude is the value of the digit run, and a non-zero result is negative exactly when the sign is `-` |
| `JsText.ParseInt` | frontend/src/app/page.tsx:89 | `parseInt(savedId)`: leading whitespace is skipped, then NaN exactly when no digit follows the optional sign; otherwise magnitude and sign as `ParseSigned` |
| `JsText.DigitRunOfDigits` | frontend/src/app/page.tsx:89 | a string made only of digits is read in full |
| `JsText.DigitsValueOfNatToDigits` | frontend/src/app/page.tsx:89 | reading the digits of `n` gives back `n` |
| `JsText.ParseIntOfDigits` | frontend/src/app/page.tsx:89 | `parseInt` of a digit string is its value |
| `JsText.ParseIntOfNegativeDigits` | frontend/src/app/page.tsx:89 | `parseInt` of a minus sign followed by digits is the negated value |
| `JsText.ParseIntOfIntToString` | frontend/src/app/page.tsx:87-89 | `parseInt(id.toString()) == id` for every integer id, so the persisted key round-trips |
| `DocumentRegistry.SetStatusById` | frontend/src/app/page.tsx:122 | same length and order; exactly the entries with that id get the new status, all others are unchanged |
| `DocumentRegistry.SettleAfterAppend` | frontend/src/app/page.tsx:107-137 | appending the `processing` entry, then moving its id to `indexed`/`error`, keeps every earlier entry in place (changed only if it shares the id) and puts the upload last with its final status |
| `DocumentRegistry.SettledWithFreshId` | frontend/src/app/page.tsx:104-107 | when the fresh id is new to the registry, settling an upload only appends its own entry |
| `DocumentRegistry.RemoveByName` | frontend/src/app/page.tsx:206 | no survivor has that name; an entry survives exactly when it was there and has another name |
| `DocumentRegistry.RemoveByNameAppend` | frontend/src/app/page.tsx:206 | removal distributes over concatenation, so survivors keep their original order |
| `DocumentRegistry.RemoveByNameAbsent` | frontend/src/app/page.tsx:206 | removing a name no entry has changes nothing |
| `DocumentRegistry.FromServer` | frontend/src/app/page.tsx:48-52 | same length and order as the server list; each entry has `id = d.id`, `name = d.filename`, status `indexed` |
| `PageModel.UploadOkText` | frontend/src/app/page.tsx:128 | the success notice starts with the check mark, names the file right after its fixed lead, and gives the decimal chunk count after the fixed middle text |
| `PageModel.UploadErrorText` | frontend/src/app/page.tsx:141 | the failure notice starts with the cross and names the file right after its fixed lead |
| `PageModel.DeleteText` | frontend/src/app/page.tsx:219 | the delete notice starts with the waste basket and names the file right after its fixed lead |
| `PageModel.Initial` | frontend/src/app/page.tsx:11-20 | every `useState` at its initial value and the key as persisted; the ids agree exactly when nothing was persisted |
| `PageModel.Truthy` | frontend/src/app/page.tsx:175 | a `session_id` is falsy exactly when it is missing, `null` or `0` |
| `PageModel.Adopts` | frontend/src/app/page.tsx:175 | adoption needs an ok reply with a `session_id`; an id of `0` or equal to the current one is never adopted; any other non-zero id is |
| `PageModel.FetchSessions` | frontend/src/app/page.tsx:32-40 | on an ok response the session list becomes the server's; otherwise the state is unchanged; nothing else changes |
| `PageModel.FetchDocuments` | frontend/src/app/page.tsx:42-56 | on an ok response the registry becomes the server list entry for entry, all `indexed`; otherwise the state is unchanged; nothing else changes |
| `PageModel.LoadSession` | frontend/src/app/page.tsx:58-72 | id active and persisted whatever the outcome; transcript is the history if non-empty, the welcome message if empty or thrown, unchanged on non-ok; a non-empty transcript stays non-empty |
| `PageModel.NewChat` | frontend/src/app/page.tsx:74-78 | no active session, key removed, transcript exactly `[WELCOME_MSG]`, nothing else changes |
| `PageModel.Restore` | frontend/src/app/page.tsx:86-92 | with a persisted id it equals `loadSession` of that id; without one the transcript is `[WELCOME_MSG]` and the session is untouched |
| `PageModel.Mount` | frontend/src/app/page.tsx:81-93 | mounted; sessions and documents refreshed per their outcomes; session and transcript as `Restore`; a fresh page ends with active and persisted ids in agreement |
| `PageModel.Upload` | frontend/src/app/page.tsx:99-147 | no file: nothing changes; with a file, exactly one notice (success or error text), upload flag cleared, and the registry settled to `error`/`indexed`, or replaced by the refresh; the transcript is only appended to |
| `PageModel.Answer` | frontend/src/app/page.tsx:182-196 | the assistant message carries the reply's `response` and `sources` on success, the fixed error notice and no sources otherwise |
| `PageModel.Adopt` | frontend/src/app/page.tsx:175-179 | under a truthy, different `session_id` the id becomes active and persisted and sessions are refreshed; otherwise nothing changes |
| `PageModel.Submit` | frontend/src/app/page.tsx:152-199 | input cleared, thinking flag cleared, transcript grows by the untrimmed user message then the `Answer`; session changes exactly under `Adopts` |
| `PageModel.Send` | frontend/src/app/page.tsx:149-150 | blank input (by `trim`) leaves the state unchanged; any other input is submitted; the transcript is only appended to |
| `PageModel.Delete` | frontend/src/app/page.tsx:202-228 | declined: nothing changes; success: name removed and one notice; failure: no message, registry refreshed from the server or left with the removal; the transcript is only appended to |
| `PageProperties.StepKeepsConsistent` | frontend/src/app/page.tsx:58-228 | every handler keeps the active and persisted session ids equal and leaves no request flag raised |
| `PageProperties.RunKeepsConsistent` | frontend/src/app/page.tsx:58-228 | the same holds after any sequence of handlers |
| `PageProperties.PageStaysConsistent` | frontend/src/app/page.tsx:81-93 | from any mount, whatever happens afterwards, the ids agree and no request flag is raised |
| `PageProperties.StepKeepsTranscript` | frontend/src/app/page.tsx:58-228 | no handler empties a non-empty transcript |
| `PageProperties.RunKeepsTranscript` | frontend/src/app/page.tsx:58-228 | no sequence of handlers empties a non-empty transcript |
| `PageProperties.RestoreOnNotOkKeepsEmptyTranscript` | frontend/src/app/page.tsx:58-92 | restoring an id whose history response is non-ok leaves the transcript empty and the id persisted |
| `PageProperties.SendIgnoresBlankInput` | frontend/src/app/page.tsx:150 | whitespace-only input changes nothing |
| `PageProperties.SendAppendsTwoMessages` | frontend/src/app/page.tsx:149-200 | other input clears the field and appends exactly the user message and one assistant message; documents untouched |
| `PageProperties.FailedUploadAddsOnlyErrorEntry` | frontend/src/app/page.tsx:104-143 | a failed upload with a fresh id adds exactly its `error` entry and changes no other entry |
| `PageProperties.IndexedUploadAddsOnlyItsEntry` | frontend/src/app/page.tsx:104-133 | a successful upload whose refresh fails adds exactly its `indexed` entry |
| `PageProperties.DeleteKeepsOrder` | frontend/src/app/page.tsx:202-221 | a confirmed, successful delete removes the name from both parts of any split of the registry, preserving order |
| `PageProperties.AdoptedSessionSurvivesReload` | frontend/src/app/page.tsx:175-179 | an adopted id is persisted, reads back through `parseInt` unchanged, and a reload opens that session's history |
| `PageProperties.NewChatSurvivesReload` | frontend/src/app/page.tsx:74-92 | after a new chat, a reload shows only the welcome message with no session, whatever the backend answers |
| `PageProperties.FirstQuestionScenario` | frontend/src/app/page.tsx:149-200 | a first question with no session adopts and persists id 42 and appends the answer with its sources |
| `PageController.ChatPage.constructor` | frontend/src/app/page.tsx:11-20 | every `useState` at its initial value; the key as the previous visit left it |
| `PageController.ChatPage.SetInput` | frontend/src/app/page.tsx:11 | typing replaces `input` and nothing else |
| `PageController.ChatPage.FetchSessions` | frontend/src/app/page.tsx:32-40 | the fields end as `PageModel.FetchSessions` says |
| `PageController.ChatPage.FetchDocuments` | frontend/src/app/page.tsx:42-56 | the fields end as `PageModel.FetchDocuments` says |
| `PageController.ChatPage.LoadSession` | frontend/src/app/page.tsx:58-72 | the fields end as `PageModel.LoadSession` says |
| `PageController.ChatPage.HandleNewChat` | frontend/src/app/page.tsx:74-78 | the fields end as `PageModel.NewChat` says |
| `PageController.ChatPage.Mount` | frontend/src/app/page.tsx:81-93 | the fields end as `PageModel.Mount` says |
| `PageController.ChatPage.Restore` | frontend/src/app/page.tsx:86-92 | the fields end as `PageModel.Restore` says |
| `PageController.ChatPage.HandleFileUpload` | frontend/src/app/page.tsx:99-147 | the fields end as `PageModel.Upload` says |
| `PageController.ChatPage.HandleSend` | frontend/src/app/page.tsx:149-200 | the fields end as `PageModel.Send` says |
| `PageController.ChatPage.Submit` | frontend/src/app/page.tsx:152-199 | the fields end as `PageModel.Submit` says |
| `PageController.ChatPage.AdoptSession` | frontend/src/app/page.tsx:175-179 | the fields end as `PageModel.Adopt` says |
| `PageController.ChatPage.HandleDeleteDocument` | frontend/src/app/page.tsx:202-228 | the fields end as `PageModel.Delete` says |

## Left out

- Rendering (page.tsx:230-282) and the presentation components (`ChatSidebar`, `ChatMessage`, `ChatContainer`, `ChatInput`, `layout.tsx`, `tailwind.config.js`): they are UI only. `isMounted` is kept as state, but what it gates is rendering.
- `fetch`, `localStorage`, `confirm`, `alert` and `console.error`: these are browser calls. Their results are parameters. The storage key is an `Option<int>`, which `JsText.ParseIntOfIntToString` justifies. `alert` and `console.error` change no page state.
- `Date.now()` and `toLocaleTimeString`: they read the clock, so ids and stamps are parameters. Two entries that get the same `Date.now()` id are both changed by `SetStatusById`, as in the code.
- Async interleaving, including the stale `messages` closure at page.tsx:158: each handler is one atomic step. An un-awaited refresh (`fetchDocuments` after an upload or a failed delete, `fetchSessions` after adoption) lands right after its handler's own updates. At mount, both `fetchSessions` and `fetchDocuments` land before the restore. They touch other fields than the restore does, so their order does not matter. Its outcome is a separate parameter.
- JSON shapes other than the expected ones (`session_id` as a string, `response` missing, a non-array history): reply fields are typed. Missing `sources` is `None`. The upload error's `data.message` is dropped, because only the generic notice reaches the state.
- JsText.ParseInt: the `0x`/`0X` hexadecimal prefix and the limits of double precision are not modelled, because the page only parses integer text it wrote itself.
- JsText.IntToString: the exponent form JavaScript uses for magnitudes of 10^21 and above is not modelled, because chunk counts and session ids stay far below that.
- The `DELETE` URL: the file name goes into it as is, without `encodeURIComponent`. A request that fails because of the name is just a failed outcome parameter.
- Streaming and newline-delimited JSON decoding: no such code exists. The page reads a single JSON body.
- The backend (FastAPI endpoints, vector store, language model, SQLite history): it is reached only over HTTP.
