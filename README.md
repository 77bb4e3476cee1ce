# Document chat: session, views and server loop in Dafny

This project models the logic of a document-chat application. A browser client talks to a
question-answering server over one WebSocket:

- the user types a question;
- the client sends `{type: 'query', content}`;
- the server answers every query frame with one `{type: 'response' | 'error', content}` frame;
- the client appends both to a conversation log.

A sidebar uploads PDF contracts and two spreadsheets to the server.

Modules, one per source file, plus three helpers:

- `Session` models `client_side/src/hooks/useWebSocket.js`. Its state is the message log,
  `isConnected`, `error` and `isLoading`, plus whether the socket exists and the frames handed
  to it. The pure function `Step` over `Event` is the specification. Each method of the class
  `WebSocketHook` (`OnOpen`, `OnClose`, `OnError`, `OnMessage`, `SendMessage`) is proved to
  perform exactly one `Step`. The invariant `Inv` covers every reachable state:
  - every entry is a query or a response;
  - the queries in the log are exactly the sent frames, in order;
  - while loading, the last entry is a query.
  The lemmas prove that the log is append-only over any run.
- `ChatView` models `client_side/src/components/Chat.js`:
  - JavaScript's `trim` and the submit guard;
  - the one-way move of the input box from centre to bottom;
  - who an entry is shown as coming from;
  - the text shown for assistant content;
  - the disabled rules for the input and the send button.
  The class `ChatComponent` holds `input` and `inputPosition` and drives the hook.
- `Upload` models `client_side/src/utils/uploadFiles.js`:
  - the split of the chosen files by MIME type;
  - the two-spreadsheet check;
  - form assembly (a method with a loop);
  - how a failure becomes the thrown value (`detail || message`, with JavaScript truthiness).
- `Layout` models `client_side/src/layouts/MainLayout.js`: the class `MainLayout` with its
  upload flags, the uploaded-files list, the theme flag and the document's `dark` class, and
  the sidebar rules.
- `Server` models `serverside/main.py`. `ConnectionManager.active_connections` is a sequence
  that the methods append to and remove from, with Python's `list.remove` semantics. The
  method `WebsocketEndpoint` runs the receive loop and is proved equal to the pure function
  `Dispatch`.
- `Scenarios` puts client and server together: one query's round trip, and a whole
  conversation.
- `Wrappers`, `Seqs` and `Json` are helpers: Option/Result, order-preserving `filter`, and
  JSON values with JavaScript's truthiness and `String(v)`.

Inputs the model cannot see become parameters:

- socket events are method calls;
- `JSON.parse` failure is the `Malformed` frame;
- the server's answer pipeline is a function `answer: Record -> Answer`;
- the HTTP reply to an upload is a `Reply`;
- `Math.random` ids are a sequence of strings;
- the window width is a number;
- `JSON.stringify` is a function parameter of `AssistantText`.

What the code has and does not have:

- There is no Connecting/Failed state. The connection is only the boolean `isConnected`.
- Log entries carry no sequence numbers or role field. An entry's order is its position, and
  its role is read from `type`.
- `onerror` records the fixed text "WebSocket error occurred", not the transport's reason.
- `onclose` does not reset `isLoading`.
- `sendMessage` sends its argument untrimmed. Trimming is done by the chat view.
- Every incoming frame is relabelled `type: 'response'`, so a server `"error"` frame is shown
  as an ordinary assistant answer (`Scenarios.QueryRoundTrip`).
- On the server, a frame that is not JSON, not an object, or has no `type` ends the loop with
  an exception. The socket then stays in `active_connections`.

## Model

| member | source | states |
|---|---|---|
| Session.QueryMessage | client_side/src/hooks/useWebSocket.js:44 | the object sent is a query with exactly the fields `type` and `content`, content as given |
| Session.Relabel | client_side/src/hooks/useWebSocket.js:30 | a received frame keeps every field except `type`, which becomes "response" whatever the server sent; the result is never a query |
| Session.StepAppendOnly | client_side/src/hooks/useWebSocket.js:28-47 | each event keeps the old log as a prefix and adds at most one entry; it adds one exactly for a parsed frame or a send that is allowed |
| Session.RunAppendOnly | client_side/src/hooks/useWebSocket.js:28-47 | over any sequence of events the log only grows at its end, by at most one entry per event |
| Session.InitialInv | client_side/src/hooks/useWebSocket.js:4-8 | the first-render state (empty log, not connected, no error, not loading) satisfies the invariant |
| Session.StepInv | client_side/src/hooks/useWebSocket.js:13-47 | every handler keeps the invariant: entries are queries or responses, the log's queries are exactly the sent frames in order, and loading implies the last entry is a query |
| Session.RunInv | client_side/src/hooks/useWebSocket.js:13-47 | every state reachable by any run of events satisfies the invariant |
| Session.StepConnection | client_side/src/hooks/useWebSocket.js:13-20 | only `onopen` and `onclose` change `isConnected` (to true and false) |
| Session.DisconnectedSendsAreDropped | client_side/src/hooks/useWebSocket.js:41-51 | while disconnected, sends, errors and closes leave the log and the sent frames unchanged and nothing is queued |
| Session.ErrorKeepsHistory | client_side/src/hooks/useWebSocket.js:22-32 | `onerror` sets the fixed error text and clears loading, keeps the log and the connected flag; an incoming message leaves the error as it was |
| Session.WebSocketHook.constructor | client_side/src/hooks/useWebSocket.js:4-8 | initial state: empty log, not connected, no error, not loading, no socket |
| Session.WebSocketHook.CreateSocket | client_side/src/hooks/useWebSocket.js:10-34 | the effect stores the socket and changes nothing else |
| Session.WebSocketHook.OnOpen | client_side/src/hooks/useWebSocket.js:13-16 | connected and error cleared; log and loading unchanged; invariant kept |
| Session.WebSocketHook.OnClose | client_side/src/hooks/useWebSocket.js:18-20 | disconnected; log, error and loading unchanged |
| Session.WebSocketHook.OnError | client_side/src/hooks/useWebSocket.js:22-26 | error is "WebSocket error occurred", loading off; log and connected flag unchanged |
| Session.WebSocketHook.OnMessage | client_side/src/hooks/useWebSocket.js:28-32 | a parsed frame is appended relabelled and loading goes off; an unparseable frame changes nothing |
| Session.WebSocketHook.SendMessage | client_side/src/hooks/useWebSocket.js:41-51 | with a socket and connected: the query is sent, appended to the log and loading set; otherwise a no-op |
| ChatView.LeadingWhitespace | client_side/src/components/Chat.js:39 | the count covers only whitespace and stops at the first non-whitespace character or the end |
| ChatView.TrailingWhitespace | client_side/src/components/Chat.js:39 | everything from the index on is whitespace, and the character before it is not |
| ChatView.TrimStart | client_side/src/components/Chat.js:39 | the result is the suffix of the input after its leading JavaScript whitespace, and starts with a non-whitespace character |
| ChatView.TrimEnd | client_side/src/components/Chat.js:39 | the result is the prefix of the input before its trailing whitespace, and ends with a non-whitespace character |
| ChatView.TrimIsSlice | client_side/src/components/Chat.js:39-40 | the trimmed text is the slice between leading and trailing whitespace and has none at either end |
| ChatView.TrimEmptyIff | client_side/src/components/Chat.js:39 | the trimmed input is empty iff the input is all whitespace |
| ChatView.TrimIdempotent | client_side/src/components/Chat.js:40 | trimming the already trimmed text changes nothing |
| ChatView.SendButtonDisabled | client_side/src/components/Chat.js:286-288 | the send button is disabled iff not connected or the input is all whitespace, i.e. iff submit would not act |
| ChatView.InputDisabled | client_side/src/components/Chat.js:278-284 | the text field is disabled iff not connected, and then the send button is disabled whatever the input |
| ChatView.SpeakerOf | client_side/src/components/Chat.js:47 | an entry is the user's iff its `type` is the string "query"; everything else is the assistant's |
| ChatView.ContentOf | client_side/src/components/Chat.js:133 | an entry's content is present iff it has a `content` field, and is that field |
| ChatView.AssistantText | client_side/src/components/Chat.js:133 | string content is shown verbatim; only non-string content goes through `JSON.stringify`; missing content shows nothing |
| ChatView.TypingIndicatorIffLoading | client_side/src/components/Chat.js:191-251 | in every reachable hook state the typing indicator shows exactly while loading, and then the last entry is the user's |
| ChatView.NextPosition | client_side/src/components/Chat.js:23-27 | bottom stays bottom; the box is at the bottom afterwards iff it was already or the log is non-empty |
| ChatView.PositionAfterIff | client_side/src/components/Chat.js:18-27 | starting at the centre, the box is at the bottom iff the log was ever non-empty |
| ChatView.PositionFollowsLog | client_side/src/components/Chat.js:18-27 | with a log that only grows, the box is at the bottom iff the current log is non-empty |
| ChatView.ChatComponent.constructor | client_side/src/components/Chat.js:17-18 | the input starts empty and the box at the centre |
| ChatView.ChatComponent.ChangeInput | client_side/src/components/Chat.js:281 | typing replaces the input |
| ChatView.ChatComponent.HandleSubmit | client_side/src/components/Chat.js:37-43 | with non-blank input and connected, the trimmed text is sent (one hook step) and the input cleared; otherwise nothing changes |
| ChatView.ChatComponent.SyncInputPosition | client_side/src/components/Chat.js:23-27 | the box moves to the bottom once the log is non-empty and never moves back |
| Upload.PartitionIsExact | client_side/src/utils/uploadFiles.js:8-12 | PDFs, spreadsheets and other files together are the chosen files, each exactly as often as chosen |
| Upload.PartitionKeepsOrder | client_side/src/utils/uploadFiles.js:8-12 | each list keeps the order of choice: files chosen later come later |
| Upload.AssembleForm | client_side/src/utils/uploadFiles.js:5-24 | succeeds iff there are at least two spreadsheets; then every PDF under `contract_files` in order, first spreadsheet as `metadata_file`, second as `category_file`, the rest dropped; otherwise the fixed message |
| Upload.Detail | client_side/src/utils/uploadFiles.js:35 | `response?.data?.detail` exists iff the body is an object with a `detail` field |
| Upload.Thrown | client_side/src/utils/uploadFiles.js:35 | the thrown value is a truthy server detail, else the error's message; never null |
| Upload.UploadFiles | client_side/src/utils/uploadFiles.js:3-37 | no request with fewer than two spreadsheets (fails with the fixed message); otherwise the posted form is every PDF under `contract_files` in order, then the first two spreadsheets as `metadata_file` and `category_file`, and the outcome is the reply's body or the mapped error |
| Layout.NewRecords | client_side/src/layouts/MainLayout.js:46-50 | one record per chosen file, in order, carrying that file's name and type and its drawn id |
| Layout.WithoutIdSpec | client_side/src/layouts/MainLayout.js:64-66 | removal drops every record with the id, keeps all others, in order |
| Layout.WithoutIdIdempotent | client_side/src/layouts/MainLayout.js:64-66 | removing the same id twice is removing it once |
| Layout.WithoutAbsentId | client_side/src/layouts/MainLayout.js:64-66 | removing an id nobody carries changes nothing |
| Layout.MainLayout.constructor | client_side/src/layouts/MainLayout.js:8-16 | sidebar open iff width at least 768; no upload, no error, empty list; theme read from the document |
| Layout.MainLayout.HandleResize | client_side/src/layouts/MainLayout.js:19-23 | after a resize the sidebar is open iff the width is at least 768 |
| Layout.MainLayout.HandleSidebarToggle | client_side/src/layouts/MainLayout.js:32-34 | the sidebar flag flips |
| Layout.MainLayout.ToggleTheme | client_side/src/layouts/MainLayout.js:68-76 | the theme flips and the `dark` class is present iff dark mode is on |
| Layout.MainLayout.HandleRemoveFile | client_side/src/layouts/MainLayout.js:64-66 | the list becomes the filtered list |
| Layout.MainLayout.BeginUpload | client_side/src/layouts/MainLayout.js:36-41 | an empty selection changes nothing; otherwise uploading is set and the error cleared |
| Layout.MainLayout.FinishUpload | client_side/src/layouts/MainLayout.js:43-61 | on success the new records follow the old ones; on failure (a thrown value that is not `null`) the error is its `toString()` and the list is unchanged; uploading is off either way |
| Layout.MainLayout.HandleFileUpload | client_side/src/layouts/MainLayout.js:36-62 | the whole handler: list and error for each of empty selection, missing spreadsheets, success and server failure |
| Json.NatToString | client_side/src/layouts/MainLayout.js:58 | digits only, at least one, no leading zero |
| Json.NatToStringRoundTrip | client_side/src/layouts/MainLayout.js:58 | the digits read back give the number |
| Json.ToJsString | client_side/src/layouts/MainLayout.js:58 | a string converts to itself and any object to "[object Object]" |
| Server.IndexOf | serverside/main.py:101-102 | the first position of the socket in the list |
| Server.RemoveFirst | serverside/main.py:101-102 | `list.remove` shortens the list by one |
| Server.RemoveFirstAt | serverside/main.py:101-102 | the result is the list without its first occurrence of the socket |
| Server.RemoveFirstTakesOne | serverside/main.py:101-102 | exactly one copy of the socket is removed and every other element kept |
| Server.ConnectThenDisconnect | serverside/main.py:97-102 | connecting a new socket and disconnecting it restores the registry |
| Server.ConnectionManager.constructor | serverside/main.py:94-95 | the registry starts empty |
| Server.ConnectionManager.Connect | serverside/main.py:97-99 | the socket is appended at the end; earlier entries unchanged |
| Server.ConnectionManager.Disconnect | serverside/main.py:101-102 | raises iff the socket is not registered (registry unchanged); otherwise removes its first occurrence |
| Server.TypeField | serverside/main.py:116-118 | `message["type"]` succeeds iff the frame is an object with a `type` key |
| Server.MessageOf | serverside/main.py:116 | a handled frame is an object with a `type` field |
| Server.ReplyTo | serverside/main.py:125-138 | a query gets `{"type":"response","content":output}` if answered, `{"type":"error","content":str(e)}` if the pipeline raised |
| Server.QueryMessages | serverside/main.py:114-118 | one message per query frame |
| Server.RepliesFor | serverside/main.py:130-138 | one reply per query, in order |
| Server.RepliesAreWellFormed | serverside/main.py:118-138 | every frame sent is a response or error frame with string content |
| Server.OneReplyPerQuery | serverside/main.py:114-138 | while frames are handled the loop keeps waiting and sends exactly one reply per query frame, in order; other frames get none |
| Server.DispatchContinues | serverside/main.py:114-138 | after handled frames (including queries whose answer raised) the loop goes on with the next frame |
| Server.UnhandledFrameEndsLoop | serverside/main.py:115-118 | a non-JSON, non-object or typeless frame ends the loop with no reply |
| Server.WebsocketEndpoint | serverside/main.py:110-140 | registers the socket, sends exactly the replies `Dispatch` gives, and deregisters it only when the client disconnects |
| Scenarios.QueryRoundTrip | serverside/main.py:114-138 | a query sent while connected gets one reply, which the client logs after the query as the assistant's (even an error) with the answer or error text, and loading stops |
| Scenarios.Conversation | client_side/src/hooks/useWebSocket.js:13-47 | open, ask, answer: the log is the question then the answer, connected, not loading, no error |

## Left out

- Rendering (JSX, markdown components, animation, scrolling, timestamps) and the DOM (`window` listeners, `preventDefault`, resetting the file input). Only the resulting booleans and strings are modelled.
- React scheduling: batched updates, effect timing and the `useCallback` closure that may see stale `socket`/`isConnected`. Each handler is one atomic step.
- Re-running the hook's effect on a new URL and closing the socket on unmount. The URL is a constant in the chat view.
- The transport and JSON text. `JSON.parse`, `JSON.stringify` and `json.dumps` are not modelled: frames are records, a parse failure is a distinguished input, and `ConnectionManager.send_message` is one element of the replies of `WebsocketEndpoint`.
- Frames that parse to a JSON value that is not an object. On the client, spreading such a value is not modelled: `Incoming.Parsed` carries an object.
- Floating-point numbers (JSON numbers are integers here), and JavaScript strings as UTF-16 code units (strings are sequences of Unicode characters).
- axios and `FormData`. The form is an ordered list of (field, file) pairs, and the server's reply is an input.
- `Math.random` ids. They are an input and are not guaranteed unique.
- The theme listener in `index.js`, which can change the `dark` class on its own. `ThemeInSync` holds only for this component's changes.
- The server's question-answering pipeline (PDF/Excel extraction, splitting, embeddings, FAISS, the QA chain) is the `answer` parameter. The upload endpoint and `serverside/app.py` are not part of this model.
- Binary WebSocket frames, and sends that fail on a closed socket inside the server loop.
- How React shows a user entry whose content is not a string. The chat view only ever sends strings.
- The `console.error` logging in the hook's `onerror` (`client_side/src/hooks/useWebSocket.js:24`) and in the upload handler's `catch` (`client_side/src/layouts/MainLayout.js:57`). It is output only and changes no state.
- Layout.MainLayout.FinishUpload: requires that a thrown value is not `null`. On `null`, `error.toString()` would itself throw inside the `catch` and leave `uploadError` as it was; the upload helper never throws `null` (`Upload.Thrown`), so `HandleFileUpload` never reaches that case.
- Server.WebsocketEndpoint: models one endpoint running alone. `manager` is shared by every connection, and while this endpoint waits at `receive_text`, at the pipeline or at `send_message`, other clients' `connect` and `disconnect` can change `active_connections`. The postconditions `activeConnections == old(activeConnections) + [ws]` and the `RemoveFirst` on disconnect hold only when no other endpoint runs in between. Interleaving of several endpoints is not modelled.
