# Student assistant front end: conversation state machine

This project models the state logic of a React chat front end for a study
assistant, with every HTTP call replaced by its outcome.

- **Conversation controller** (`src/App.jsx`), module `Conversation`. It holds
  four fields: the session table, the current session id, the live transcript
  and the busy flag. Class `App` has one method per handler: load history,
  send a question, upload a file, select a session, start a new chat. Each
  method's contract says that the new state is a pure transition function
  applied to the old state (`State() == SettleSend(old(State()), o)`). The
  lemmas are stated about those transition functions.
- **Composer** (`src/components/MessageInput.jsx`), module `Input`. Class
  `MessageInput` holds the typed text, the selected mode and the staged file.
  The function `Decide` is the submit rule: it yields nothing, an upload, or a
  send. Module `Modes` holds the six-mode table.
- **Side panel** (`src/components/Sidebar.jsx`), module `Sidebar`. It lists
  the session ids newest first, gives each a title and highlights the current
  one.
- `Frontend.Submit` wires the composer's submit into the controller, as
  `src/App.jsx` does when it mounts `MessageInput`. Module `Scenarios` steps
  through whole interactions, from mount to the last settled request.

A send and an upload are each split into a start and a settle step. Any
handler may run between the two, because nothing stops a session switch
while a request is in flight. A reply is appended to whatever transcript is
live when it settles (`Conversation.ReplyFollowsLiveTranscript`).

Three behaviours of the code are worth noting:

- The controller's handlers do not check the busy flag. The only guard is the
  composer's submit rule. The side panel stays active while a request is in
  flight.
- Going back to a session shows its stored transcript (`sessions[id] || []`),
  not the live one. An upload or a failed ask does not refresh the table, so
  the messages they add are gone after a switch away and back
  (`Conversation.NewChatThenBack`, `Conversation.UploadLostOnSwitchBack`).
- A reply whose `error` field is the empty string takes the answer branch,
  because the empty string is falsy (`Conversation.HasError`).

## Model

| member | source | states |
|---|---|---|
| `Text.Trim` | src/components/MessageInput.jsx:22 | `message.trim()` is empty exactly when every character of the message is ECMAScript whitespace or a line terminator |
| `Messages.Lookup` | src/App.jsx:85 | a key that `sessions[id]` finds belongs to an entry of the table, and the value found is that entry's transcript |
| `Messages.StoredOrEmpty` | src/App.jsx:85 | `sessions[id] \|\| []` is the transcript of the entry with that id, and empty when no entry has that id |
| `Messages.LookupFinds` | src/App.jsx:85 | `sessions[id]` for the id of a table entry yields that entry's transcript |
| `Messages.LookupMisses` | src/App.jsx:85 | `sessions[id]` is missing exactly when no entry has that id |
| `Modes.ModesTable` | src/components/MessageInput.jsx:5-12 | the mode bar lists each of the six modes once, under its own id, with `exam` first and as the default |
| `Modes.IdInjective` | src/components/MessageInput.jsx:5-12 | different modes have different ids, so the mode sent names the selected mode |
| `Input.SubmitDisabled` | src/components/MessageInput.jsx:107 | the send button is disabled exactly when a submit is not accepted by the check at line 22; when idle with no file staged, it is disabled exactly when the text is blank |
| `Input.Decide` | src/components/MessageInput.jsx:22-29 | a submit does nothing exactly when the send button is disabled (lines 22 and 107 agree); with a file staged and not busy it uploads that file; otherwise it sends the untrimmed text with the selected mode, and only when the text is not blank |
| `Input.MessageInput.constructor` | src/components/MessageInput.jsx:15-17 | the composer starts with empty text, no file and mode `exam` |
| `Input.MessageInput.Edit` | src/components/MessageInput.jsx:75-87 | typing replaces the text, except while busy, when the text box is disabled |
| `Input.MessageInput.ChooseMode` | src/components/MessageInput.jsx:47 | clicking a mode selects it, with no condition |
| `Input.MessageInput.ChooseFile` | src/components/MessageInput.jsx:33-38 | a chosen file is staged; a dialog closed with no file leaves the staged file unchanged |
| `Input.MessageInput.Submit` | src/components/MessageInput.jsx:20-31 | the action is `Decide` of the state before the submit; an upload clears the file and keeps the text; a send clears the text and keeps the file; the mode never changes |
| `Input.MessageInput.KeyDown` | src/components/MessageInput.jsx:78-83 | Enter without Shift submits by the same rule as the button; any other key submits nothing and changes nothing |
| `Sidebar.SessionIds` | src/components/Sidebar.jsx:6 | the listed ids are the table's keys in reverse insertion order, one per entry |
| `Sidebar.SessionIdsListKeysOnce` | src/components/Sidebar.jsx:6 | no id is listed twice, and an id is listed exactly when the table holds it |
| `Sidebar.TitleAsWritten` | src/components/Sidebar.jsx:28 | the rendered title is never empty and has at most 33 characters; a session with no messages is titled "undefined"; an empty last message gives "Empty Chat" |
| `Sidebar.EmptySessionTitledUndefined` | src/components/Sidebar.jsx:28 | as written, a session with no messages is titled "undefined" (see Findings) |
| `Sidebar.Title` | src/components/Sidebar.jsx:27-28 | the title is never empty and has at most 33 characters; an empty last message gives "Empty Chat"; a last message of 30 characters or fewer is shown whole; a longer one shows its first 30 characters followed by `...`; for a non-empty session it equals the expression as written |
| `Sidebar.StoredAtListed` | src/components/Sidebar.jsx:27 | the transcript looked up for a listed id is the transcript of the entry it was listed for |
| `Sidebar.EntriesAsWritten` | src/components/Sidebar.jsx:26-43 | the rendered rows: one per session, newest first; each row's title is the title as written of that session's transcript; a row is highlighted exactly when its id is the current id |
| `Sidebar.Entries` | src/components/Sidebar.jsx:26-43 | the corrected rows: the same ids and highlights, titled with the corrected `Title` (see Findings) |
| `Sidebar.EntriesCorrectOnlyEmptySessions` | src/components/Sidebar.jsx:26-43 | the rendered and corrected rows agree on id and highlight, and their titles differ exactly for sessions with no messages |
| `Sidebar.AtMostOneHighlighted` | src/components/Sidebar.jsx:36-43 | at most one row is highlighted, and it is the current session's |
| `Conversation.SessionIdFor` | src/App.jsx:89 | a minted id (here and at line 13) is `session_` followed by the clock reading in decimal |
| `Conversation.SessionIdInjective` | src/App.jsx:89 | `session_${Date.now()}` gives two clock readings the same id only when the readings are equal |
| `Conversation.HasError` | src/App.jsx:48 | only a reply with an `error` field counts as an error, and an empty `error` string does not |
| `Conversation.Init` | src/App.jsx:12-15 | the initial state has an empty table, an empty transcript, busy cleared, and an id minted from the clock |
| `Conversation.LoadHistory` | src/App.jsx:25 | a fetched history becomes the table; a failed fetch changes nothing; no other field changes |
| `Conversation.AskFor` | src/App.jsx:42-46 | the ask carries the content unmodified, the session id current when it is sent, and the id of exactly the chosen mode |
| `Conversation.StartUpload` | src/App.jsx:62 | an upload first sets busy and changes nothing else |
| `Conversation.SelectSession` | src/App.jsx:84-85 | the id becomes current; the transcript becomes that of the entry with the id, or empty when no entry has it; the table and busy flag are unchanged |
| `Conversation.NewChat` | src/App.jsx:89-91 | a new chat makes a freshly minted id current with an empty transcript, and leaves the table and busy flag unchanged |
| `Conversation.AskReply` | src/App.jsx:48-55 | the settled ask adds one assistant message: the fixed connection advisory on transport failure; `Error: ` followed by the error text verbatim when `error` is truthy; the answer otherwise |
| `Conversation.UploadReplies` | src/App.jsx:71-77 | a failed upload adds only the fixed format advisory; a successful one adds a user line naming the file, then an assistant report headed by the returned file name, with the analysis after a blank line |
| `Conversation.StartSend` | src/App.jsx:37-39 | a send first appends exactly one user message with the content unmodified, keeps the prior transcript as a prefix, and sets busy |
| `Conversation.SettleSend` | src/App.jsx:48-58 | a settled send appends exactly `AskReply(o)`, keeps the prior transcript, the table and the current id, and clears busy |
| `Conversation.SettleUpload` | src/App.jsx:71-80 | a settled upload appends exactly `UploadReplies(file, o)` (two messages on success, one on failure), keeps the prior transcript, leaves the table unchanged and clears busy |
| `Conversation.SendAddsExchange` | src/App.jsx:36-58 | an uninterrupted send grows the transcript by exactly the user's text and then one assistant reply, and leaves busy clear |
| `Conversation.AnsweredSendsAlternate` | src/App.jsx:50-52 | after N answered sends the transcript has grown by 2N messages, alternating user and assistant in the order asked; N history refreshes were issued |
| `Conversation.SelectIdempotent` | src/App.jsx:83-86 | selecting a session twice gives the same state as selecting it once |
| `Conversation.NewChatThenBack` | src/App.jsx:83-92 | a new chat followed by selecting the previous id restores that id and its stored transcript; the state returns exactly when the live transcript matched the stored one |
| `Conversation.UploadLostOnSwitchBack` | src/App.jsx:61-86 | the messages of an upload in a session the table does not hold are gone after a new chat and a switch back, whatever the two clock readings |
| `Conversation.ReplyFollowsLiveTranscript` | src/App.jsx:36-58 | the ask carries the id that was current when it was sent; if a new chat starts before the reply settles, the reply is appended to the new chat's transcript |
| `Conversation.HistoryReplacesWholesale` | src/App.jsx:22-34 | a fetched history replaces the table wholesale; a failed fetch changes nothing; loading history changes no other field |
| `Conversation.App.constructor` | src/App.jsx:12-15 | mounting gives an empty table, an id minted from the clock, an empty transcript, and busy cleared; the history fetch that mounting also issues (lines 18-20) is not part of the constructor and is modelled as a later `FetchHistory` call (see Left out) |
| `Conversation.App.FetchHistory` | src/App.jsx:22-34 | the new state is `LoadHistory` of the old state and the fetch outcome |
| `Conversation.App.StartSendMessage` | src/App.jsx:36-46 | the new state is `StartSend`; the request carries exactly the content, the session id current at call time, and the mode's id |
| `Conversation.App.SettleSendMessage` | src/App.jsx:48-58 | the new state is `SettleSend`; a history refresh is issued exactly when the reply has no truthy `error` |
| `Conversation.App.SendMessage` | src/App.jsx:36-59 | an uninterrupted send appends the user message and the reply, sends the request, and refreshes exactly on an answer |
| `Conversation.App.StartFileUpload` | src/App.jsx:61-69 | the upload sets busy and posts the given file |
| `Conversation.App.SettleFileUpload` | src/App.jsx:71-80 | the new state is `SettleUpload`; no refresh is issued |
| `Conversation.App.HandleSessionSelect` | src/App.jsx:83-86 | the id becomes current and the live transcript becomes `sessions[id]`, or empty when the key is absent |
| `Conversation.App.HandleNewChat` | src/App.jsx:88-92 | a freshly minted id becomes current, the transcript is emptied, and the table is untouched |
| `Conversation.App.ClickSidebarEntry` | src/components/Sidebar.jsx:33 | clicking rendered row `i` selects exactly that row's id and shows the transcript stored for it |
| `Frontend.Submit` | src/App.jsx:127-131 | no request is made exactly when the send button is disabled; a staged file is posted; otherwise the echo, the busy flag and the ask follow `StartSend` and `AskFor` with the text and the selected mode; a post clears the staged file and keeps the text; an ask clears the text and keeps the file; the mode never changes |
| `Scenarios.AnsweredQuestion` | src/App.jsx:36-52 | empty history, then "What is a monad?" in mode `concept_breakdown`, answered: the transcript is that exchange, the request carries the mode id, and one refresh is issued |
| `Scenarios.QuestionIsNotBlank` | src/components/MessageInput.jsx:22 | "What is a monad?" is not blank, so an idle composer with no file accepts it |
| `Scenarios.QuestionAsked` | src/App.jsx:42-46 | from a fresh chat with empty history, that question is accepted and asked in mode `concept_breakdown` under the chat's minted id |
| `Scenarios.QuestionAnswered` | src/App.jsx:37-52 | an answer to that question leaves the transcript as exactly the user's question and the answer, and issues a refresh |
| `Scenarios.RateLimited` | src/App.jsx:48-49 | a reply `{error: "rate limited"}` appends "Error: rate limited" and issues no refresh |
| `Scenarios.FailedUpload` | src/App.jsx:76-80 | staging "notes.pdf" and submitting posts that file; its failure adds only the format advisory, leaves the table unchanged and clears busy |
| `Scenarios.BlankSubmit` | src/components/MessageInput.jsx:22 | whitespace-only text with no file makes no request and leaves the app idle with an empty transcript |

## Left out

- HTTP: the axios calls, the multipart `FormData` encoding and the base address are not modelled. A request is a value returned by a start method. Its result is an outcome passed to a settle method.
- Promise scheduling: start and settle are separate steps, and any handler may run between them. The history refresh issued after an answer is a returned flag. Mounting also issues one history fetch (src/App.jsx:18-20); the constructor does not return it. The completion of either fetch is a later `FetchHistory` call. Which of several pending requests settles first is not modelled.
- The clock: `Date.now()` is a parameter `now`. Two readings may be equal (two new chats in one millisecond), and nothing here claims that minted ids are unique.
- Key order: `Object.keys` lists integer-like keys first and the rest in insertion order. The table is modelled as an insertion-ordered list with distinct ids. A history reply with duplicate JSON keys is not modelled.
- JavaScript values of other types are not modelled. This covers an ask reply whose `answer` is missing (its content would be `undefined`), an `error` that is a truthy non-string, and an upload reply missing `filename` or `analysis` (shown as the text "undefined").
- String length: `substring` and `length` count UTF-16 code units. The model counts characters. The two differ for characters outside the Basic Multilingual Plane.
- The selected mode is a string in the source, and only the six ids are ever stored in it. Here it is the `Mode` datatype, so "always one of the six" holds by its type.
- The remove-file button (src/components/MessageInput.jsx:68) has no `type`, and it sits inside the form that opens at line 61, so it is a submit button. A click clears the staged file and then submits the form; what that submit does depends on whether React has re-rendered in between. It is not modelled.
- The transcript view (src/components/ChatArea.jsx) is not part of this model. It only renders, scrolls, animates and formats markdown.
- Styling, icons, class strings, the `isSidebarOpen` toggle (it never reaches the side panel) and the commented-out branch of `fetchHistory` (it does nothing) are left out.
- The `console.error` call on a failed history fetch is left out.

## Findings

| source | as written | input that shows it | evidently intended | confidence | as-written member | corrected member |
|---|---|---|---|---|---|---|
| src/components/Sidebar.jsx:28 | with no last message, `lastMsg?.content.substring(0, 30)` is `undefined`, and `undefined + ''` is the string "undefined". That string is truthy, so the logical-or fallback to `'Empty Chat'` never applies | a history entry whose transcript is `[]` | such a session is titled "Empty Chat", like one whose last message is empty | medium, not executed (it needs the history service to return an empty transcript) | `Sidebar.EmptySessionTitledUndefined` | `Sidebar.Title` |

`Sidebar.TitleAsWritten` is the expression as written, and `Sidebar.EntriesAsWritten`, the listing the side panel renders, uses it. `Sidebar.Title` is the corrected title, and `Sidebar.Entries` is the corrected listing. The two listings differ only in the titles of sessions with no messages (`Sidebar.EntriesCorrectOnlyEmptySessions`).
