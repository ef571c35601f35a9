# Chat client `App` component — a verified model

The client is a single React component, `App` in `src/App.jsx`. It keeps four
pieces of state: `username`, `isJoined`, `message` (the text in the input box)
and `messages` (everything received). It talks to a server over one shared
socket. `joinChat` emits `"join"` with the typed name and switches to the chat
screen. `sendMessage` emits `"sendMessage"` with `{user, text}` and clears the
input box. A `receiveMessage` listener, registered when the component mounts
and removed by the mount effect's cleanup, appends every delivered message to
the end of `messages`. Both operations ignore input that `trim()` reduces to the
empty string.

The model has three modules:

- `JsStrings` (`js_strings.dfy`) models `String.prototype.trim` over the
  ECMAScript white-space and line-terminator characters. `Trim` is proved to
  cut `s` into a blank prefix, a piece with non-white-space ends and a blank
  suffix. `TrimUnique` proves that this description determines the piece.
  `HasContent`, the condition `if (x.trim())`, holds exactly when the string is
  not blank.
- `AppModel` (`app_model.dfy`) is the component's state as a value, plus the
  log of everything emitted on the socket and whether the listener is
  registered. `Step` gives the effect of one event: typing in either box, a
  click on Join or Send, a socket delivery, or unmounting. `Run` applies a
  sequence of events. The lemmas state what holds for every session:
  - the received list grows only by deliveries that arrive while the listener
    is registered, in order, and sending adds nothing to it;
  - the user is on the chat screen exactly when a `"join"` was emitted;
  - a session driven through the rendered screens emits one `"join"` first,
    then only messages stamped with the joined name;
  - once on the chat screen, the name can no longer change and no further
    `"join"` is emitted.
- `ChatApp` (`chat_app.dfy`) is the component as a class. Its fields are the
  React state, and a ghost field holds the emit log. Each method updates the
  fields the way the corresponding setter calls and `socket.emit` calls do.
  Each method's contract states the new value of every field and ties the
  method to `AppModel.Step`, so the session lemmas carry over to calls on an
  `App`. `RunMessages` and `RunJoinedIffJoinEmitted` hold for any sequence of
  calls. The session-log lemmas hold only for sequences the screens allow
  (`UiRun`). The class does not enforce that: calling `JoinChat` twice emits
  two joins. `EchoScenario` is a client that uses only these contracts. A user
  joins and sends a message that starts with a space, and the server delivers
  it back. The message appears once, and only after the delivery, and the
  text is sent untrimmed.

The socket is not modelled as a connection. `socket.emit(name, payload)` is an
append of `Emission(name, payload)` to the log, and `socket.on` / `socket.off`
for `"receiveMessage"` set and clear the `listening` flag.

The code has no chat ids, rooms, join de-duplication, history fetch, message
ids or sender ids. A richer design of such a client would have these, but this
model follows the code. It emits `"join"` with the bare user name and sends
`{user, text}` with no conversation address, so the model does the same.

## Model

| member | source | states |
|---|---|---|
| `JsStrings.Trim` | src/App.jsx:39 | `x.trim()` is `x` with blank margins removed; it is empty exactly when `x` is empty or white space only; otherwise both its first and last characters are not white space |
| `JsStrings.TrimUnique` | src/App.jsx:50 | any piece of `x` framed by blank margins whose ends are not white space (or which is empty) equals `x.trim()`, so `Trim` is fully determined by its contract |
| `JsStrings.HasContent` | src/App.jsx:39 | the guard `if (x.trim())` is true exactly when `x` is not blank |
| `AppModel.Mounted` | src/App.jsx:13-16 | initial state: empty name and input box, not joined, no messages, nothing emitted, listener registered |
| `AppModel.ChatScreenIffJoinEmitted` | src/App.jsx:38-43 | from mounting on, the chat screen (`View`, which shows the login screen exactly while not joined, src/App.jsx:67-82) is shown after a session exactly when the session emitted a `"join"` |
| `AppModel.Step` | src/App.jsx:24-62 | every event only appends to `messages`, and only a delivery while listening does; the emit log only grows, by at most one entry, and only on Join or Send; `isJoined` never reverts; a removed listener stays removed; `username` changes only by typing it |
| `AppModel.RunMessages` | src/App.jsx:22-31 | after any session, `messages` is the earlier list followed by exactly the deliveries made while the listener was registered, in arrival order (`Delivered`); sends contribute nothing, `isJoined` plays no part, and the listener stays registered exactly when no unmount happened |
| `AppModel.MessagesFrozenAfterCleanup` | src/App.jsx:31 | once the cleanup has removed the listener, no later sequence of events changes `messages` |
| `AppModel.RunJoinedIffJoinEmitted` | src/App.jsx:38-43 | after any session the log extends the earlier log, and the user is joined exactly when they were before or the session emitted a `"join"` |
| `AppModel.StepKeepsSessionLog` | src/App.jsx:38-62 | an event the current screen allows keeps the log shaped as: nothing before joining; then one `"join"` with the non-blank name, followed only by `"sendMessage"` payloads with that name and a non-blank text |
| `AppModel.ChatScreenLocksName` | src/App.jsx:67-108 | the controls each screen renders (`Enabled`): the name box and Join button only on the login screen (src/App.jsx:71-76), the message box, Enter key and Send button only on the chat screen (src/App.jsx:102-108), none after unmounting (`listening` stands for "still mounted"); deliveries at any time. So once joined, any session the screens allow keeps the user joined, keeps the name, and emits no further `"join"` |
| `AppModel.UiRunKeepsSessionLog` | src/App.jsx:67-108 | that log shape holds after any session in which every click and keystroke happens on the screen that renders its control |
| `AppModel.UiSessionFromMount` | src/App.jsx:13-62 | every such session from mounting on emits at most one `"join"`, before any message, and every message carries the joined name |
| `ChatApp.App.constructor` | src/App.jsx:13-28 | mounting: empty name and input box, not joined, no messages, listener registered, nothing emitted |
| `ChatApp.App.SetUsername` | src/App.jsx:73 | the name box's `onChange` sets `username` and nothing else |
| `ChatApp.App.SetMessage` | src/App.jsx:104 | the message box's `onChange` sets `message` and nothing else |
| `ChatApp.App.JoinChat` | src/App.jsx:38-43 | a blank name emits nothing and leaves `isJoined` as it was; otherwise exactly one `("join", username)` is emitted with the untrimmed name and `isJoined` becomes true; `username`, `message`, `messages` and the listener are untouched |
| `ChatApp.App.SendMessage` | src/App.jsx:49-62 | a blank input emits nothing and stays in the box; otherwise exactly one `("sendMessage", {user: username, text: message})` is emitted with the untrimmed text and the box is cleared; `messages` is unchanged (no local echo), as are `username`, `isJoined` and the listener |
| `ChatApp.App.ReceiveMessage` | src/App.jsx:24-28 | while the listener is registered, `messages` becomes the old list followed by `data`, joined or not; after cleanup it is unchanged; no other field changes and nothing is emitted |
| `ChatApp.App.Unmount` | src/App.jsx:31 | the cleanup removes the listener and changes nothing else |

## Left out

- The socket.io connection (src/App.jsx:2, 9): no networking, reconnection or delivery guarantee is modelled. `emit` appends to a ghost log. `on`/`off` for `"receiveMessage"` set a flag.
- The server is not part of this model. Whether and when a sent message comes back as a `receiveMessage` delivery is up to the caller, which chooses the `Delivery` events.
- The payload of `receiveMessage` is taken to have the shape `{user, text}` that the chat screen renders. Other shapes the server might send are not modelled.
- `socket.off("receiveMessage")` removes every listener for that event on the shared socket, including those of any other component. The model has one component, so it only clears that component's flag.
- JSX rendering (src/App.jsx:64-110) is left out, except for which screen is shown (`View`) and which controls that screen offers (`Enabled`). The Enter-key and click wiring (src/App.jsx:76, 105, 108) becomes the `JoinClick` and `SendClick` events.
- React scheduling is left out: render batching, stale closures and the development-mode double run of effects. Callbacks are treated as sequential calls that see the latest state.
- JavaScript strings are UTF-16 code-unit sequences. The model uses Unicode scalar values, so it cannot represent lone surrogates (none of them is white space).
- `AppModel.Step`: its guard is written as "not blank" rather than `trim()`. `HasContent` proves the two equivalent, and the `ChatApp` methods evaluate `Trim` itself.
