# News chatbot client: conversation state, connection bookkeeping and input rules

This project models the client-side logic of a React news chatbot in Dafny and proves properties of it:

- the conversation state of the `ChatInterface` component. The state is the message list, the sources panel, the `sending`/`loading` flags and the current session id. It changes on socket pushes (`new_message`, `session_cleared`), on the optimistic send and its rollback, on history loading, on session creation and on clearing;
- the connection bookkeeping of the `useSocket` hook: `isConnected`, `connectionError`, the reconnect-attempt counter, the reconnect-timer slot, the `min(1000·2^n, 5000)` ms backoff with its cap of 5 attempts, and the `emit` guard;
- the submit rules of `MessageInput`: the trimmed draft, the `disabled` prop and IME composition;
- what `Message` and `Sidebar` derive for display: the author label, markdown or plain body, the first three sources with a "+N more sources" note, session titles, the active marker, the footer count and relative-date buckets.

Each awaited request is split into an issue step and a completion step (success or failure). Completions may interleave with push events. Handlers that update component state are class methods (`Chat`, `SocketHook`, `InputBox`, `SessionList`). The methods of `Chat`, and those of `SocketHook` other than `SetTimeout`, state their new state as a pure transition function of the old state, and the lemmas are stated about those functions. The methods of `InputBox` and `SessionList`, and `SocketHook.SetTimeout`, state their new field values directly. `SocketHook.Handle` and `HandleReconnect` also keep the timer invariant `Valid`.

Files: `base.dfy` (Option, Outcome), `js_text.dfy` (JavaScript `trim` and decimal rendering), `chat_types.dfy` (Message, Source), `chat_interface.dfy`, `use_socket.dfy`, `message_input.dfy`, `message_view.dfy`, `sidebar.dfy`.

Parameters stand in for what cannot be modelled:

- the generated uuid (`freshId`);
- the ISO timestamp (`now`);
- the current time and the parsed `updatedAt` (integer milliseconds);
- request outcomes (`Outcome`);
- the events the socket delivers (`SocketEvent`).

Some behaviours of the code that a reader might not expect, each stated by a lemma or contract:

- History responses are applied whatever the current session is. There is no stale-response check (`StaleHistoryApplied`).
- An assistant `new_message` with `sources: []` replaces the sources with `[]`. `showSources` stays true, but the panel disappears because it needs a non-empty list (`EmptySourcesHidePanel`).
- `handleReconnect` overwrites the timer slot without clearing the timer already in it. A later `connect` clears only the newest timer (`OverwrittenTimerStaysScheduled`).
- The hook never counts failures and has no "failed" state. The counter is whatever `reconnect_attempt` reports. `reconnect_failed` only records an error and marks the socket disconnected.
- `session_cleared` empties the messages and the sources but leaves `showSources` as it was.
- History load never sets `showSources`, even when the last assistant message has sources. It only replaces `sources` (`HistorySources`, `HistorySourcesFromLast`).
- Switching sessions through the `sessionId` prop clears neither `sources` nor `showSources`. When the new session's history has no assistant message, the previous session's sources panel stays visible (`PanelSurvivesSwitch`).

## Model

| member | source | states |
|---|---|---|
| ChatInterface.HasId | src/components/ChatInterface.js:50 | `prev.some(msg => msg.id === id)` holds iff some entry carries the id |
| ChatInterface.AppendIfNew | src/components/ChatInterface.js:48-55 | the ids afterwards are the old ids plus the message's id; the old list is a prefix; the list grows by one (the message, at the end) iff the id was new; distinct ids stay distinct |
| ChatInterface.RemoveById | src/components/ChatInterface.js:157 | the filtered list keeps only entries of the old list, none with the removed id, and its ids are the old ids minus that id |
| ChatInterface.RemoveUniqueEntry | src/components/ChatInterface.js:152-157 | with distinct ids, rolling back the entry at position k removes exactly it and keeps all others in order |
| ChatInterface.LastAssistant | src/components/ChatInterface.js:114-116 | the filter-then-pop finds nothing iff there is no assistant message, else an assistant message of the list |
| ChatInterface.LastAssistantIsLast | src/components/ChatInterface.js:114-116 | the message found is the assistant message that no other assistant message follows |
| ChatInterface.NewMessageDedup | src/components/ChatInterface.js:47-55 | a `new_message` with a known id leaves the list unchanged; otherwise it is appended at the end |
| ChatInterface.NewMessageSources | src/components/ChatInterface.js:57-63 | an assistant message with a `sources` field sets `sources` to exactly that array, including `[]`; `showSources` becomes true iff it was true or the array is non-empty, so this handler never sets it false; other messages leave both alone |
| ChatInterface.PushAllDedup | src/components/ChatInterface.js:47-55 | any run of `new_message` events keeps ids distinct, keeps the earlier list as a prefix, and adds exactly the pushed ids |
| ChatInterface.DistinctCount | src/components/ChatInterface.js:49-54 | with distinct ids the list has exactly one entry per id |
| ChatInterface.PushAllCommutesWithRemove | src/components/ChatInterface.js:139-157 | pushes delivered while a send is in flight commute with its rollback when they do not reuse its id |
| ChatInterface.OptimisticRollback | src/components/ChatInterface.js:129-160 | an accepted send that fails, with any pushes in between, leaves exactly the messages those pushes alone would leave, and clears `sending` |
| ChatInterface.SendSuccessEffect | src/components/ChatInterface.js:142-151 | a successful send adds only the user message; `sources` becomes the response's sources or `[]`; `showSources` becomes true iff they are non-empty, else keeps its value; `sending` is false |
| ChatInterface.SendRejected | src/components/ChatInterface.js:130 | whitespace-only text or a send in flight makes `handleSendMessage` a no-op |
| ChatInterface.ClearIdempotent | src/components/ChatInterface.js:163-173 | after a successful clear the sources panel is hidden, and clearing twice gives the same state as clearing once |
| ChatInterface.HistorySources | src/components/ChatInterface.js:107-127 | history load sets the messages to the response's (or `[]`), keeps `showSources` and the session id, ends loading, and leaves `sources` alone when there is no assistant message |
| ChatInterface.HistorySourcesFromLast | src/components/ChatInterface.js:113-120 | only the last assistant message of the history is inspected: `sources` becomes its `sources` field when present (even `[]`), and is kept when it has none, whatever earlier assistant messages carry |
| ChatInterface.PanelSurvivesSwitch | src/components/ChatInterface.js:29-41 | after a switch through the `sessionId` prop and a history load without assistant messages, the new id is current and the previous sources panel is still visible with the same sources |
| ChatInterface.StaleHistoryApplied | src/components/ChatInterface.js:107-111 | a history response arriving after a new session was created still replaces the new session's messages |
| ChatInterface.EmptySourcesHidePanel | src/components/ChatInterface.js:58-63 | an assistant message with `sources: []` after one with a source leaves `showSources` true but `sources` empty, so the panel (`showSources && sources.length > 0`, line 241) is hidden |
| ChatInterface.Chat.constructor | src/components/ChatInterface.js:19-24 | the initial state: the prop's session id, no messages or sources, all flags false |
| ChatInterface.Chat.OnNewMessage | src/components/ChatInterface.js:47-66 | the handler's new state is `PushNewMessage` of the old one |
| ChatInterface.Chat.OnSessionCleared | src/components/ChatInterface.js:68-72 | messages and sources become empty; everything else is unchanged |
| ChatInterface.Chat.HandleSendMessage | src/components/ChatInterface.js:129-140 | returns whether the guard let the send through; if so, one user message with the fresh id and the given text is appended and `sending` is set |
| ChatInterface.Chat.OnSendSucceeded | src/components/ChatInterface.js:143-151 | the new state is `SendSucceeded` of the old one |
| ChatInterface.Chat.OnSendFailed | src/components/ChatInterface.js:152-160 | the optimistic message's id is filtered out and `sending` is cleared |
| ChatInterface.Chat.OnSessionProp | src/components/ChatInterface.js:29-33 | a truthy, different `sessionId` prop becomes the current session id |
| ChatInterface.Chat.SessionEffect | src/components/ChatInterface.js:35-41 | a truthy current id issues a history fetch for it, otherwise a session creation; either sets `loading` |
| ChatInterface.Chat.OnHistoryLoaded | src/components/ChatInterface.js:110-126 | the new state is `HistoryLoaded` of the old one |
| ChatInterface.Chat.HandleNewChat | src/components/ChatInterface.js:176-178 | the New Chat button issues a session creation even while a session is current, and sets `loading` |
| ChatInterface.Chat.OnSessionCreated | src/components/ChatInterface.js:92-103 | switches to the new id with no messages, no sources, the panel closed and loading over; returns the new id, which is passed to `onNewSession` |
| ChatInterface.Chat.OnRequestFailed | src/components/ChatInterface.js:121-126 | only `loading` is reset |
| ChatInterface.Chat.OnClearSucceeded | src/components/ChatInterface.js:165-168 | messages and sources emptied, panel closed |
| ChatInterface.Chat.CloseSourcesPanel | src/components/ChatInterface.js:251 | `showSources` becomes false |
| UseSocket.ReconnectDelay | src/hooks/useSocket.js:99-102 | the delay lies between 1000 and 5000 ms |
| UseSocket.DelaySchedule | src/hooks/useSocket.js:99-102 | the delay is 1000, 2000 and 4000 ms for attempts 0 to 2 and 5000 ms from then on |
| UseSocket.DelayMonotone | src/hooks/useSocket.js:99-102 | more attempts never give a shorter delay |
| UseSocket.CancelMembers | src/hooks/useSocket.js:36-39 | after `clearTimeout(h)` a timer is still scheduled iff it was scheduled and its handle is not h |
| UseSocket.StepValid | src/hooks/useSocket.js:28-84 | every socket event keeps the invariant: distinct increasing handles, every delay a backoff delay, and the slot naming the newest timer |
| UseSocket.RunValid | src/hooks/useSocket.js:97-111 | any run of events keeps that invariant, so every recorded delay is 1000, 2000, 4000 or 5000 ms |
| UseSocket.AttemptsChangedOnlyBy | src/hooks/useSocket.js:59-69 | only `reconnect_attempt` sets the counter, to the reported number; `connect`/`reconnect` reset it to 0; no other event, including those that call `handleReconnect`, changes it |
| UseSocket.NoTimerAtCap | src/hooks/useSocket.js:98 | with 5 or more attempts `handleReconnect` changes nothing |
| UseSocket.TimerBelowCap | src/hooks/useSocket.js:97-111 | below the cap exactly one timer with the backoff delay is recorded, the slot names it, and the counter is unchanged |
| UseSocket.ConnectEffect | src/hooks/useSocket.js:29-40 | `connect` sets connected, clears the error, resets the counter, empties the slot and clears only the timer the slot named |
| UseSocket.DisconnectEffect | src/hooks/useSocket.js:42-50 | `disconnect` marks the socket disconnected and records a retry iff the reason is exactly "io server disconnect" and the cap is not reached |
| UseSocket.ConnectErrorEffect | src/hooks/useSocket.js:52-57 | `connect_error` records the message, marks the socket disconnected and records a retry iff below the cap |
| UseSocket.ReconnectErrorEffects | src/hooks/useSocket.js:71-84 | `reconnect_failed` sets the fixed error and disconnects; `reconnect_error` sets only the error |
| UseSocket.OverwrittenTimerStaysScheduled | src/hooks/useSocket.js:104 | two connection errors and then `connect` leave the first timer scheduled, because its handle was overwritten in the slot |
| UseSocket.EmitGuard | src/hooks/useSocket.js:113-119 | `emit` sends exactly the one event when a socket exists and is connected, and changes nothing otherwise |
| UseSocket.SocketHook.constructor | src/hooks/useSocket.js:10-14 | no socket, disconnected, no error, counter 0, empty slot |
| UseSocket.SocketHook.Mount | src/hooks/useSocket.js:86 | the socket object now exists |
| UseSocket.SocketHook.SetTimeout | src/hooks/useSocket.js:104 | records one timer under a new handle and returns that handle |
| UseSocket.SocketHook.HandleReconnect | src/hooks/useSocket.js:97-111 | the new state is `RetryScheduled` of the old one, and the timer invariant is kept |
| UseSocket.SocketHook.Handle | src/hooks/useSocket.js:29-84 | the state after each event's handler is `Step` of the old state, and the timer invariant is kept |
| UseSocket.SocketHook.Emit | src/hooks/useSocket.js:113-119 | returns whether the event was forwarded, which happens iff a socket exists and is connected |
| JsText.Trim | src/components/MessageInput.js:24 | `trim` removes exactly the leading and trailing ECMAScript whitespace; the result is empty iff the string is all whitespace |
| JsText.TrimUnique | src/components/MessageInput.js:24-25 | any slice that drops only whitespace and neither starts nor ends with it equals `trim`'s result |
| JsText.TrimIdempotent | src/components/MessageInput.js:25 | trimming a trimmed text changes nothing |
| JsText.Decimal | src/components/Sidebar.js:147 | a count renders as a non-empty string of decimal digits without a leading zero |
| JsText.DecimalRoundTrip | src/components/Message.js:135 | reading the rendered digits back gives the count |
| JsText.DecimalInjective | src/components/Sidebar.js:147 | different counts render as different digit strings |
| MessageInput.Submission | src/components/MessageInput.js:24-25 | `onSendMessage` is called iff the draft is not all whitespace, the input is enabled and no composition is in progress; it gets the trimmed draft, which is non-empty and already trimmed |
| MessageInput.SubmissionImpliesCanSend | src/components/MessageInput.js:49 | `canSend` holds iff the trimmed draft is non-empty and the input is enabled, whatever the composition state; outside a composition a submit goes through iff `canSend` |
| MessageInput.InputBox.constructor | src/components/MessageInput.js:10-11 | empty draft, not composing |
| MessageInput.InputBox.HandleSubmit | src/components/MessageInput.js:22-28 | returns the text passed to `onSendMessage`; an accepted submit empties the draft and a rejected one keeps it |
| MessageInput.InputBox.HandleKeyDown | src/components/MessageInput.js:30-35 | Enter without Shift outside a composition submits; Shift+Enter, Enter while composing, and other keys do not |
| MessageInput.InputBox.HandleCompositionStart | src/components/MessageInput.js:37-39 | composition starts; the draft is unchanged |
| MessageInput.InputBox.HandleCompositionEnd | src/components/MessageInput.js:41-43 | composition ends; the draft is unchanged |
| MessageInput.InputBox.HandleInputChange | src/components/MessageInput.js:45-47 | the draft becomes the textarea's value |
| MessageView.AuthorLabel | src/components/Message.js:24-35 | the label is "You" iff the role is "user", else "Assistant" |
| MessageView.BodyOf | src/components/Message.js:42-109 | the body is markdown iff the role is "assistant", plain text otherwise, and shows the content unchanged |
| MessageView.Listed | src/components/Message.js:118 | at most three sources are listed: the first min(3, n), in their original order |
| MessageView.SourcesBlockOf | src/components/Message.js:112-139 | the block appears iff the message is an assistant message with a non-empty `sources` array; the note appears iff there are more than 3 sources and reads "+(n−3) more sources" |
| MessageView.SourcesAccountedFor | src/components/Message.js:118-136 | the listed sources followed by the hidden ones are all the sources, and the number in the note reads back as the hidden count |
| MessageView.OtherRoleRendering | src/components/Message.js:24-43 | a role that is neither "user" nor "assistant" is labelled "Assistant" but shown as plain text without sources |
| Sidebar.SessionTitle | src/components/Sidebar.js:122-124 | "New Chat" unless `messageCount > 0`; then the title if it is truthy, else "Chat " followed by the id's first 8 characters, or the whole id when it is shorter |
| Sidebar.FooterLabel | src/components/Sidebar.js:147 | the footer starts with the count and ends in "s" iff the count is not exactly 1, zero included |
| Sidebar.FooterCount | src/components/Sidebar.js:147 | the footer's digits read back as the count and are followed by " session" for one and " sessions" otherwise |
| Sidebar.WholeHours | src/components/Sidebar.js:59 | between 1 and 24 hours the shown hour count h satisfies h·3600000 ≤ elapsed < (h+1)·3600000, with 1 ≤ h ≤ 23 |
| Sidebar.FormatSessionDate | src/components/Sidebar.js:50-66 | under one hour (future dates too) "Just now"; from 1 to 24 hours "<whole hours>h ago"; later the month-day form; an unparseable date "Unknown" |
| Sidebar.ListViewOf | src/components/Sidebar.js:94-140 | spinner while loading, the empty placeholder for no sessions, otherwise one row per session in order, each showing that session's `SessionTitle` and active iff its id is the current session |
| Sidebar.AtMostOneActive | src/components/Sidebar.js:110-115 | with distinct session ids at most one row is marked active |
| Sidebar.SessionList.constructor | src/components/Sidebar.js:14-15 | no sessions, not loading |
| Sidebar.SessionList.BeginLoadSessions | src/components/Sidebar.js:23-25 | loading starts; the list is kept |
| Sidebar.SessionList.CompleteLoadSessions | src/components/Sidebar.js:26-33 | the list becomes the response's `sessions`, or `[]` when absent; on failure it is kept; loading ends either way |
| Sidebar.SessionList.CompleteNewSession | src/components/Sidebar.js:35-43 | a created session's id goes to `onNewSession` and a reload starts; a failure changes nothing |

## Left out

- What the parent does with the id passed to `onNewSession` is not modelled. In src/App.js it becomes the `sessionId` prop, whose effect `OnSessionProp` models.
- Rendering, markdown and syntax highlighting, toasts, scrolling, framer-motion animation and console logging have no effect on the modelled state.
- Registering and removing the socket listeners is not modelled (`socket.on`/`socket.off`, src/components/ChatInterface.js:43-79). The `join_session` emit at line 45 is left out too. The handlers themselves are modelled.
- The reconnect timer's callback is not modelled (src/hooks/useSocket.js:105-108). It reads a `socket` captured while still null, so the model only records that a delay was scheduled.
- Real time is not modelled, and neither are the cleanup on unmount (src/hooks/useSocket.js:89-94) and the hook's `on`/`off`/`connect`/`disconnect` wrappers (lines 121-143). The wrappers only forward to the transport or test `socket.connected`, which is the transport's own state.
- socket.io-client's built-in reconnection and its configuration (src/hooks/useSocket.js:19-26) are outside this model. The events it raises are inputs.
- The HTTP layer (src/services/api.js) becomes request outcomes. Its only logic prefixes error messages, and those messages are only logged.
- `formatMessageTime`, date-fns' "MMM d" rendering and `new URL(...).hostname` are not modelled. The month-day case is the `MonthDay` label. src/components/SourcesList.js, MessageList.js, Header.js and App.js are not part of this model.
- Render-only conditions are left out: the full-screen loading state (src/components/ChatInterface.js:180), the Clear Chat button shown only with messages (line 221) and the connection indicator (lines 201-208).
- React closures are not modelled. A handler sees the current state, whereas `handleSendMessage` reads `sending` from the render it was created in.
- `formatSessionDate` uses floating-point division of the elapsed milliseconds. The model uses integer division of integer milliseconds. The two agree below 24 hours, where the hour count is shown.
- `id.slice(0, 8)` counts UTF-16 code units. The model counts characters. The two differ only for ids outside the Basic Multilingual Plane.
- Timestamps stay opaque strings. A session's `updatedAt` is its parsed value in milliseconds, or none when it does not parse.
