# ChatFlow client core in Dafny

This project models the client-side core of ChatFlow, a Next.js chat front end:

- **`useWebSocket`.** The reconnecting socket hook: connection flag, last message, reconnect timer, send gate and cleanup.
- **Mock authentication.** `AuthProvider`, the session persisted under `chatUser`, and `useAuth`.
- **Route guard.** `ChatLayout`, which shows a spinner, redirects home or renders the chat.
- **Global chat page.** The demo feed, the delayed append of a sent message with its typing indicator, and the tab header.
- **Message composer.** The trimmed submit guard and the single typing timeout.
- **Private messages panel.** Conversation search, relative timestamps, per-conversation threads, sending, and the mobile thread sheet.
- **New-chat dialog.** The user search and the start-chat action.
- **Signup-dialog store and profile editor.** The store's open flag, and the profile editor's edit, save and cancel.

## How it is modelled

The socket hook, the auth provider, the chat page, the composer and the private-messages panel are each modelled in two layers:

- **Functions on a value.** The state is a datatype, and each handler is a function on it (`AfterClose`, `AfterSubmit`, `AfterSendPrivate`, …). The lemmas that state what the source promises are proved on these functions.
- **A class.** Its fields mirror the state cells and refs. Each handler is a method whose `ensures` ties the new state to the function: `State() == AfterX(old(State()), …)`.

The signup store, the profile editor and the new-chat dialog hold only a few flags and strings. Each is a single class whose methods' `ensures` give every field's new value directly.

Other modelling choices:

- **The reconnect timer and the typing timeout are numbered handles.** `setTimeout` returns the next handle and adds it, with its delay, to a pending map. `clearTimeout(ref.current)` removes only the handle the ref names. A timer "fires" when an event names a pending handle.
- **The chat page's delayed appends are a queue.** They are never cleared, and they fire oldest first. `ChatPage.AppendsShareDelay` justifies the order: every append waits the same 500 ms.
- **The socket is a sequence of per-socket ready states.** `wsRef.current` is an index into that sequence.
- **Socket events carry the socket's index.** The handlers do not check that the socket is the current one, just as the source's closures do not.
- **Event preconditions say only what a browser guarantees.** For example, `onopen` fires only on a connecting socket.

Other parts stand in for JavaScript behaviour:

- **JSON.** It is an abstract codec (`decode: string -> Option<J>`, `encode`). A failed `JSON.parse` is `None`.
- **String built-ins:**
  - `trim` strips the ECMAScript white-space and line-terminator characters.
  - `toLowerCase` is shown on ASCII.
  - `includes` is a substring search.
  - `filter` is `Text.Keep`.
  - `Date.now().toString()` is `Text.Decimal`, which `Text.ParseDecimal` reads back.
- **Truthiness.** A string is truthy when non-empty. `selectedConversation` is truthy when present and non-empty.

Two behaviours of the source are worth stating:

- **Cleanup does not stop reconnecting.** The hook's cleanup closes the socket and clears any pending retry (`SocketClient.CleanupClearsRetry`). If the socket had not closed yet, its `onclose` handler still runs afterwards and, with `reconnect` on, schedules a new connection attempt. `SocketClient.CleanupThenCloseStillReconnects` states this.
- **An error does not drop the connection flag by itself.** `onerror` only calls `ws.close()`. `isConnected` drops when the resulting close event arrives (`SocketClient.ErrorThenClose`).

## Model

| member | source | states |
|---|---|---|
| SocketClient.Configure | src/hooks/useWebSocket.ts:11-14 | `reconnect` defaults to true and `reconnectInterval` to 3000 ms; given options are used as passed |
| SocketClient.DecodeOrRaw | src/hooks/useWebSocket.ts:30-37 | an incoming frame becomes the decoded value when JSON parsing succeeds, and the raw text exactly when it fails |
| SocketClient.MountStartsLive | src/hooks/useWebSocket.ts:15-21 | mounting creates one connecting socket, not connected, no last message, and the hook invariant holds |
| SocketClient.LiveFacts | src/hooks/useWebSocket.ts:15-50 | under the invariant: at most one reconnect timer is pending and it is the one the ref names; connected implies the current socket is open or closing; a send is possible only while connected; only the current socket can be unclosed |
| SocketClient.StepKeepsLive | src/hooks/useWebSocket.ts:20-67 | every handler (open, message, close, error, retry timer, send) preserves the invariant while mounted |
| SocketClient.RunKeepsLive | src/hooks/useWebSocket.ts:20-67 | any sequence of events while mounted preserves the invariant |
| SocketClient.CloseSchedulesOneRetry | src/hooks/useWebSocket.ts:39-44 | a close clears `isConnected`, marks the socket closed and, with reconnect on, adds exactly one new timer of `reconnectInterval` named by the ref; with reconnect off no timer is added |
| SocketClient.ErrorThenClose | src/hooks/useWebSocket.ts:46-48 | an error changes neither the flag nor the timers; followed by its close event it ends exactly where the close alone would |
| SocketClient.MessageReplacesLast | src/hooks/useWebSocket.ts:30-37 | a message replaces `lastMessage` (last write wins) with the parsed value or the raw text and changes nothing else |
| SocketClient.SendOnlyWhenOpen | src/hooks/useWebSocket.ts:63-67 | a send transmits exactly one encoded frame on the current socket when it is open, and otherwise changes nothing |
| SocketClient.ReconnectScenario | src/hooks/useWebSocket.ts:20-50 | open, close, retry after 3000 ms: a second socket is created and, once open, the hook is connected with no timer pending |
| SocketClient.CleanupClearsRetry | src/hooks/useWebSocket.ts:55-60 | cleanup leaves no reconnect timer pending in any live state; when the socket had already closed with a retry pending, every socket stays closed, so no later close event can schedule another |
| SocketClient.CleanupThenCloseStillReconnects | src/hooks/useWebSocket.ts:39-60 | cleanup of a socket that has not closed yet leaves it closing with no timer pending, yet its close event still schedules a retry that creates a new socket |
| SocketClient.Hook.constructor | src/hooks/useWebSocket.ts:11-18 | the hook starts with the configured options, disconnected, no message, no socket and no timer |
| SocketClient.Hook.Connect | src/hooks/useWebSocket.ts:20-21 | `connect` appends a connecting socket and makes it current |
| SocketClient.Hook.Mount | src/hooks/useWebSocket.ts:53-54 | the mount effect connects, and a fresh hook becomes live |
| SocketClient.Hook.OnOpen | src/hooks/useWebSocket.ts:23-28 | the socket opens, the hook is connected and the ref's timer is cleared; it keeps a live hook live |
| SocketClient.Hook.OnMessage | src/hooks/useWebSocket.ts:30-37 | the new state is `AfterMessage` of the old one: `lastMessage` is replaced by the decoded frame or its raw text; it keeps a live hook live |
| SocketClient.Hook.OnClose | src/hooks/useWebSocket.ts:39-44 | the new state is the close step: disconnected, with a retry scheduled when reconnecting; it keeps a live hook live |
| SocketClient.Hook.OnError | src/hooks/useWebSocket.ts:46-48 | the error handler only asks the socket to close; it keeps a live hook live |
| SocketClient.Hook.OnTimer | src/hooks/useWebSocket.ts:42 | a firing retry timer leaves the pending set and connects again; it keeps a live hook live |
| SocketClient.Hook.SendMessage | src/hooks/useWebSocket.ts:63-67 | the new state is the send step: one frame when the current socket is open; it keeps a live hook live |
| SocketClient.Hook.Cleanup | src/hooks/useWebSocket.ts:55-60 | cleanup closes the current socket and clears the ref's timer; on a live hook no reconnect timer is left pending |
| AuthProvider.AfterLoad | src/providers/auth-provider.tsx:25-32 | after the load effect loading is over, the stored user is adopted when present and storage is unchanged |
| AuthProvider.LoginOutcome | src/providers/auth-provider.tsx:42-48 | login succeeds exactly when username and password are both non-empty; then user and storage hold the username only; otherwise nothing changes |
| AuthProvider.LoginThenReload | src/providers/auth-provider.tsx:25-46 | after a successful login a freshly loaded provider has the same username and is not loading |
| AuthProvider.LogoutThenReload | src/providers/auth-provider.tsx:51-54 | after a logout a freshly loaded provider has no user |
| AuthProvider.UseAuth | src/providers/auth-provider.tsx:63-68 | `useAuth` fails exactly outside a provider, with the provider error message, and otherwise returns the context |
| AuthProvider.Provider.constructor | src/providers/auth-provider.tsx:22-23 | a provider starts with no user and loading |
| AuthProvider.Provider.Load | src/providers/auth-provider.tsx:25-32 | the new state is the load step |
| AuthProvider.Provider.Login | src/providers/auth-provider.tsx:34-49 | returns whether the credentials were accepted and moves to the login step |
| AuthProvider.Provider.Logout | src/providers/auth-provider.tsx:51-54 | the user and the stored entry are removed |
| ChatLayout.Decide | src/app/chat/layout.tsx:16-34 | spinner exactly while loading; a redirect to "/" and nothing rendered exactly when loaded without a user; the children exactly when loaded with a user |
| ChatLayout.GuardAfterLoad | src/app/chat/layout.tsx:16-34 | a fresh provider shows the spinner; after its load only a stored user reaches the chat, anyone else is sent to "/" |
| SignupStore.Store.constructor | src/hooks/use-signup-store.ts:13 | the dialog starts closed |
| SignupStore.Store.Open | src/hooks/use-signup-store.ts:14 | `open` sets the flag |
| SignupStore.Store.Close | src/hooks/use-signup-store.ts:15 | `close` clears the flag |
| SignupStore.Store.SetOpen | src/hooks/use-signup-store.ts:16 | `setOpen(b)` sets the flag to `b` |
| UserProfile.NameOf | src/components/chat/user-profile.tsx:17 | the display name is the user's name, or empty without a user |
| UserProfile.Profile.constructor | src/components/chat/user-profile.tsx:16-19 | not editing, the user's name, the default bio and status "online" |
| UserProfile.Profile.Edit | src/components/chat/user-profile.tsx:61 | enters edit mode without changing any value |
| UserProfile.Profile.SetDisplayName | src/components/chat/user-profile.tsx:96 | the name input, only present while editing, replaces the display name and nothing else |
| UserProfile.Profile.SetBio | src/components/chat/user-profile.tsx:109 | the bio input, only present while editing, replaces the bio and nothing else |
| UserProfile.Profile.Save | src/components/chat/user-profile.tsx:21-24 | leaves edit mode and keeps every edited value |
| UserProfile.Profile.Cancel | src/components/chat/user-profile.tsx:26-29 | leaves edit mode and restores the display name from the user; the bio keeps its edit |
| MessageInput.Submitted | src/components/chat/message-input.tsx:29-32 | a message is sent exactly when the trimmed draft is non-empty and the input is enabled, and what is sent is the trimmed draft |
| MessageInput.HandlersKeepOneTimeout | src/components/chat/message-input.tsx:36-66 | at most one typing timeout is ever pending and it is the one the ref names; an input change leaves exactly one, of 1000 ms; submit and unmount leave none |
| MessageInput.SubmitOutcome | src/components/chat/message-input.tsx:27-40 | a rejected submit changes nothing; an accepted one clears the draft and the typing flag |
| MessageInput.InputChangeTyping | src/components/chat/message-input.tsx:42-48 | the draft becomes the input value; the flag is raised by a non-empty value and never lowered by an input change |
| MessageInput.Input.constructor | src/components/chat/message-input.tsx:22-25 | empty draft, not typing, no timeout |
| MessageInput.Input.ClearTypingTimeout | src/components/chat/message-input.tsx:37-39 | only the timeout the ref names is cancelled |
| MessageInput.Input.HandleSubmit | src/components/chat/message-input.tsx:27-40 | returns what is sent and moves to the submit step, keeping the one-timeout invariant |
| MessageInput.Input.HandleInputChange | src/components/chat/message-input.tsx:42-59 | moves to the input-change step, keeping the one-timeout invariant |
| MessageInput.Input.OnTimeout | src/components/chat/message-input.tsx:56-58 | the pending timeout fires and lowers the typing flag |
| MessageInput.Input.Unmount | src/components/chat/message-input.tsx:61-67 | unmount leaves no typing timeout pending |
| NewChatDialog.FilterUsersExact | src/components/chat/new-chat-dialog.tsx:34 | exactly the users whose lower-cased name contains the lower-cased query are listed |
| NewChatDialog.FilterUsersOrder | src/components/chat/new-chat-dialog.tsx:34 | the filter keeps list order: it distributes over concatenation and keeps a single user exactly when it matches |
| NewChatDialog.EmptyQueryListsAll | src/components/chat/new-chat-dialog.tsx:34 | an empty query lists every user |
| NewChatDialog.SpaceQueryNotTrimmed | src/components/chat/new-chat-dialog.tsx:34 | the query is not trimmed: a lone space lists no user whose name has no space |
| NewChatDialog.Dialog.constructor | src/components/chat/new-chat-dialog.tsx:23-32 | the five demo users and an empty query |
| NewChatDialog.Dialog.SetSearchQuery | src/components/chat/new-chat-dialog.tsx:70 | the search input sets the query |
| NewChatDialog.Dialog.Listed | src/components/chat/new-chat-dialog.tsx:34 | the shown list holds exactly the users whose lower-cased name contains the lower-cased query, is no longer than the user list, and is the filtered list itself, so `FilterUsersOrder` gives its order and multiplicity |
| NewChatDialog.Dialog.HandleStartChat | src/components/chat/new-chat-dialog.tsx:36-40 | reports the chosen user id, asks to close the dialog and resets the query |
| PrivateMessages.BlankQueryKeepsAll | src/components/chat/private-messages.tsx:107-109 | a query that is blank after trimming lists every conversation |
| PrivateMessages.FilterConversationsExact | src/components/chat/private-messages.tsx:107-111 | any other query lists exactly the conversations whose lower-cased name contains the trimmed, lower-cased query |
| PrivateMessages.FilterConversationsOrder | src/components/chat/private-messages.tsx:107-111 | the filter keeps list order: it distributes over concatenation, and a single conversation stays exactly when the query is blank or matches it |
| PrivateMessages.Bucket | src/components/chat/private-messages.tsx:115-122 | minutes below an hour, hours below a day, days beyond; the count is the floor of the difference in that unit, within its range |
| PrivateMessages.FormatTimeReadsBack | src/components/chat/private-messages.tsx:113-123 | the label reads back as the count and unit of the elapsed time, so distinct buckets give distinct labels |
| PrivateMessages.DemoLabels | src/components/chat/private-messages.tsx:80-105 | the demo conversations are labelled "4m ago", "1h ago" and "2h ago" |
| PrivateMessages.FindConversation | src/components/chat/private-messages.tsx:144 | the selected conversation is the first one whose id equals the selection, and none when no id does |
| PrivateMessages.SendPrivateOutcome | src/components/chat/private-messages.tsx:125-142 | without a non-blank draft, a selection and a user nothing changes; otherwise the trimmed draft, stamped with the user and time, is appended to the selected thread (created if absent), the draft is cleared and every other thread is untouched |
| PrivateMessages.SendKeepsHistory | src/components/chat/private-messages.tsx:137-140 | a send never drops or reorders a message: every earlier thread is a prefix of the new one |
| PrivateMessages.SendShowsInThread | src/components/chat/private-messages.tsx:137-145 | the open thread afterwards shows its previous messages followed by the sent one |
| PrivateMessages.ThreadActions | src/components/chat/private-messages.tsx:147-164 | closing the sheet keeps the selection; starting a chat selects the user, closes the dialog and opens the sheet below 768 px; a card click selects it and opens the sheet below 768 px |
| PrivateMessages.Panel.constructor | src/components/chat/private-messages.tsx:36-105 | the demo conversations and threads, nothing selected, empty query and draft, sheet and dialog closed |
| PrivateMessages.Panel.SetSearchQuery | src/components/chat/private-messages.tsx:260 | the search input sets the query only |
| PrivateMessages.Panel.SetNewMessage | src/components/chat/private-messages.tsx:233 | the draft input sets the draft only |
| PrivateMessages.Panel.SetNewChatOpen | src/components/chat/private-messages.tsx:270 | the new-chat button and the dialog's open callback set the dialog flag only |
| PrivateMessages.Panel.HandleSendPrivateMessage | src/components/chat/private-messages.tsx:125-142 | the new state is the private send step |
| PrivateMessages.Panel.OpenThread | src/components/chat/private-messages.tsx:147-151 | selects the conversation and opens the sheet |
| PrivateMessages.Panel.CloseThread | src/components/chat/private-messages.tsx:153-156 | closes the sheet and keeps the selection |
| PrivateMessages.Panel.HandleStartChat | src/components/chat/private-messages.tsx:158-164 | the new state is the start-chat step |
| PrivateMessages.Panel.SelectFromList | src/components/chat/private-messages.tsx:295-300 | the new state is the card-click step |
| ChatPage.HeaderIdentifiesTab | src/app/chat/page.tsx:129-150 | each tab has its own header title, and only the profile tab uses the user icon |
| ChatPage.DemoMessagesShape | src/app/chat/page.tsx:38-63 | the mount effect installs three messages with ids "1", "2" and "3" from Alice, Bob and Charlie, oldest first |
| ChatPage.SendMessageOutcome | src/app/chat/page.tsx:70-76 | without a user a send changes nothing; with one it shows the indicator and schedules exactly one append of the content as passed, under the user's name, leaving the feed and the tab as they were |
| ChatPage.AppendFiresOutcome | src/app/chat/page.tsx:76-87 | a firing appends exactly the oldest scheduled message at the end, keeps the earlier ones, hides the indicator, and leaves the rest of the queue and the tab as they were |
| ChatPage.SendExtendsOutlook | src/app/chat/page.tsx:70-88 | a send extends what the feed will eventually show by its content, at the end |
| ChatPage.FiringKeepsOutlook | src/app/chat/page.tsx:76-87 | a firing does not change what the feed will eventually show, so sends appear in the order they were made |
| ChatPage.AppendsShareDelay | src/app/chat/page.tsx:76-87 | every scheduled append waits the same 500 ms, before and after sends and firings, so appends fire oldest first |
| ChatPage.IndicatorClearedEarly | src/app/chat/page.tsx:74-86 | two quick sends: the first firing hides the indicator while the second append is still pending |
| ChatPage.Page.constructor | src/app/chat/page.tsx:30-32 | no messages, no indicator, the global tab |
| ChatPage.Page.Mount | src/app/chat/page.tsx:38-63 | the mount effect installs the demo messages |
| ChatPage.Page.HandleSendMessage | src/app/chat/page.tsx:70-88 | the new state is the send step |
| ChatPage.Page.OnAppendTimer | src/app/chat/page.tsx:76-87 | the oldest scheduled append fires |
| ChatPage.Page.SetActiveTab | src/app/chat/page.tsx:172 | the sidebar sets the active tab only |
| ChatPage.Page.CurrentHeader | src/app/chat/page.tsx:129-152 | the header's title identifies the active tab, and the user icon is shown exactly on the profile tab |
| Text.Trim | src/components/chat/message-input.tsx:29 | `trim()`: the result is a contiguous slice with no leading or trailing white space, and empty exactly when the input is all white space |
| Text.ToLowerProperties | src/components/chat/new-chat-dialog.tsx:34 | lower-casing keeps the length, leaves no upper-case ASCII letter and is idempotent |
| Text.ContainsIff | src/components/chat/new-chat-dialog.tsx:34 | `includes` holds exactly when the query occurs at some position |
| Text.KeepAppend | src/components/chat/private-messages.tsx:110 | `filter` distributes over concatenation |
| Text.DecimalRoundTrip | src/components/chat/private-messages.tsx:130 | the decimal id of a timestamp parses back to the same number |

## Left out

- SocketClient: `JSON.parse` and `JSON.stringify` are an abstract codec, so the model does not capture which texts parse.
- SocketClient: the endpoint from `NEXT_PUBLIC_WEBSOCKET_API` is not modelled, because it is configuration only.
- SocketClient: the browser's socket and timer machinery is not modelled. Socket states change only through the handlers and the close requests.
- SocketClient: re-creating `connect` when the options change between renders is not modelled. The options are fixed for the hook's lifetime.
- AuthProvider: the 1000 ms simulated login delay and the Promise plumbing are left out. The model is the state once the delay is over.
- AuthProvider: malformed JSON in storage is not modelled. The stored entry is modelled as the user it encodes.
- Text.ToLowerProperties: only ASCII letters are lower-cased, a weaker mapping than JavaScript's full Unicode `toLowerCase`.
- PrivateMessages.Bucket: timestamps are whole milliseconds. The source's floating-point division followed by `Math.floor` becomes integer floor division.
- Router navigation is left out: `router.push("/")` appears only as the redirect value in `ChatLayout.Decide`, and the logout button's navigation in the chat page is not modelled.
- The profile's "days active" figure and date locale formatting are presentation only and are left out.
- Rendering, animation, scrolling into view and the chat header component are presentation only and are left out.
- The signup dialog component is not part of this model; only its store is.
- The `type` field of messages is always the same constant per list and is left implicit.
- The `typeof window` guard is not modelled. The window width is a parameter.
- React re-render timing and stale closures are not modelled: each handler reads the state as of its call.
