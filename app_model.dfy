/**
 * The state of the chat client's `App` component as a value, the effect of
 * each of its operations on that value, and what holds of whole sessions.
 *
 * The component keeps four pieces of React state (`username`, `isJoined`,
 * `message`, `messages`); two more pieces of the model record what it does
 * to the shared socket: whether its `receiveMessage` listener is registered,
 * and the log of every `socket.emit(eventName, payload)` it has made.
 */
module AppModel {
  import opened JsStrings

  /** A chat message, `{user, text}`, as sent on `sendMessage` and as rendered from `receiveMessage`. */
  datatype ChatMessage = ChatMessage(user: string, text: string)

  /** The payload of an emitted socket event. */
  datatype Payload = Username(name: string) | MessageData(data: ChatMessage)

  /** One `socket.emit(event, payload)`. */
  datatype Emission = Emission(event: string, payload: Payload)

  const JoinEvent: string := "join"
  const SendMessageEvent: string := "sendMessage"

  datatype State = State(
    username: string,         // the name typed on the login screen
    isJoined: bool,           // true once the user has joined; selects the chat screen
    message: string,          // the text in the message input box
    messages: seq<ChatMessage>, // every message received, in arrival order
    listening: bool,          // the `receiveMessage` listener is registered
    emitted: seq<Emission>    // everything emitted on the socket, oldest first
  )

  /** The component right after mounting: initial state, listener registered. */
  function Mounted(): (s: State)
    ensures s.username == "" && s.message == ""
    ensures !s.isJoined && s.listening
    ensures s.messages == [] && s.emitted == []
  {
    State("", false, "", [], true, [])
  }

  /** The two screens the component renders. */
  datatype Screen = Login | Chat

  /** The login screen is rendered exactly while the user has not joined. */
  function View(s: State): (v: Screen)
    ensures v == Login <==> !s.isJoined
  {
    if !s.isJoined then Login else Chat
  }

  /** What can happen to the component: user input on either screen, a socket delivery, unmounting. */
  datatype Event =
    | UsernameInput(value: string)  // typing in the name box
    | MessageInput(value: string)   // typing in the message box
    | JoinClick                     // `joinChat`
    | SendClick                     // `sendMessage`, by button or Enter key
    | Delivery(data: ChatMessage)   // the server emits `receiveMessage` with `data`
    | Unmount                       // the effect's cleanup: `socket.off("receiveMessage")`

  /**
   * The effect of one event. Whatever the event: `messages` only grows at its
   * end, and only on a delivery while listening; the emit log only grows, by
   * at most one entry; the user never leaves the chat screen; a removed
   * listener stays removed; and `username` changes only by typing in it.
   */
  ghost function Step(s: State, e: Event): (r: State)
    ensures s.messages <= r.messages
    ensures |r.messages| == |s.messages| + (if e.Delivery? && s.listening then 1 else 0)
    ensures s.emitted <= r.emitted && |r.emitted| <= |s.emitted| + 1
    ensures |r.emitted| == |s.emitted| + 1 ==> e.JoinClick? || e.SendClick?
    ensures s.isJoined ==> r.isJoined
    ensures r.listening == (s.listening && !e.Unmount?)
    ensures r.username != s.username ==> e.UsernameInput?
  {
    match e
    case UsernameInput(v) => s.(username := v)
    case MessageInput(v) => s.(message := v)
    case JoinClick =>
      if !IsBlank(s.username) then
        s.(emitted := s.emitted + [Emission(JoinEvent, Username(s.username))], isJoined := true)
      else s
    case SendClick =>
      if !IsBlank(s.message) then
        var messageData := ChatMessage(s.username, s.message);
        s.(emitted := s.emitted + [Emission(SendMessageEvent, MessageData(messageData))], message := "")
      else s
    case Delivery(data) =>
      if s.listening then s.(messages := s.messages + [data]) else s
    case Unmount => s.(listening := false)
  }

  /** The state after the events `es`, in order. */
  ghost function Run(s: State, es: seq<Event>): State
    decreases |es|
  {
    if es == [] then s else Run(Step(s, es[0]), es[1..])
  }

  /**
   * Reference definition of what the `receiveMessage` listener collects from
   * `es`: every delivery that arrives while it is registered, in order; it is
   * registered at the start exactly when `listening` holds, and an unmount
   * removes it.
   */
  function Delivered(listening: bool, es: seq<Event>): seq<ChatMessage>
    decreases |es|
  {
    if es == [] then []
    else
      match es[0]
      case Delivery(data) => (if listening then [data] else []) + Delivered(listening, es[1..])
      case Unmount => Delivered(false, es[1..])
      case _ => Delivered(listening, es[1..])
  }

  /** The cleanup does not run during `es`. */
  predicate NoUnmount(es: seq<Event>) {
    forall i :: 0 <= i < |es| ==> !es[i].Unmount?
  }

  /**
   * The received list after any session is the list before it followed by
   * exactly the deliveries made while the listener was registered: entries
   * are appended only at the end, none is changed or dropped, sending adds
   * nothing locally, whether the user has joined plays no part, and once the
   * cleanup has run nothing more is added. The listener stays registered
   * exactly when there was no unmount.
   */
  lemma {:induction false} RunMessages(s: State, es: seq<Event>)
    ensures Run(s, es).messages == s.messages + Delivered(s.listening, es)
    ensures Run(s, es).listening == (s.listening && NoUnmount(es))
    decreases |es|
  {
    if es != [] {
      var t := Step(s, es[0]);
      RunMessages(t, es[1..]);
      assert NoUnmount(es) <==> !es[0].Unmount? && NoUnmount(es[1..]) by {
        if NoUnmount(es[1..]) {
          forall i | 1 <= i < |es| ensures !es[i].Unmount? {
            assert es[i] == es[1..][i - 1];
          }
        }
      }
    }
  }

  /** With the listener removed, the listener collects nothing. */
  lemma {:induction false} DeliveredNothingUnregistered(es: seq<Event>)
    ensures Delivered(false, es) == []
    decreases |es|
  {
    if es != [] {
      DeliveredNothingUnregistered(es[1..]);
    }
  }

  /** Once the cleanup has run, no later event changes `messages` again. */
  lemma MessagesFrozenAfterCleanup(s: State, es: seq<Event>)
    requires !s.listening
    ensures Run(s, es).messages == s.messages
  {
    RunMessages(s, es);
    DeliveredNothingUnregistered(es);
  }

  /** Number of emissions in `log` carrying the event name `name`. */
  function Count(log: seq<Emission>, name: string): nat
    decreases |log|
  {
    if log == [] then 0
    else Count(log[..|log| - 1], name) + (if log[|log| - 1].event == name then 1 else 0)
  }

  /**
   * The user is on the chat screen after a session exactly when they were
   * already, or the session emitted at least one `"join"`; the log of the
   * session is the earlier log with new emissions appended.
   */
  lemma {:induction false} RunJoinedIffJoinEmitted(s: State, es: seq<Event>)
    ensures s.emitted <= Run(s, es).emitted
    ensures Run(s, es).isJoined <==> s.isJoined || Count(Run(s, es).emitted, JoinEvent) > Count(s.emitted, JoinEvent)
    decreases |es|
  {
    if es != [] {
      var t := Step(s, es[0]);
      RunJoinedIffJoinEmitted(t, es[1..]);
      CountPrefix(t.emitted, Run(t, es[1..]).emitted, JoinEvent);
      assert Count(t.emitted, JoinEvent) > Count(s.emitted, JoinEvent) <==> (!s.isJoined && t.isJoined) || (s.isJoined && t.emitted != s.emitted && es[0].JoinClick?);
    }
  }

  /**
   * From mounting on, the chat screen is shown after a session exactly when
   * the session emitted a `"join"`.
   */
  lemma ChatScreenIffJoinEmitted(es: seq<Event>)
    ensures View(Run(Mounted(), es)) == Chat <==> Count(Run(Mounted(), es).emitted, JoinEvent) > 0
  {
    RunJoinedIffJoinEmitted(Mounted(), es);
  }

  /** Counting never decreases as a log grows. */
  lemma {:induction false} CountPrefix(a: seq<Emission>, b: seq<Emission>, name: string)
    requires a <= b
    ensures Count(a, name) <= Count(b, name)
    decreases |b|
  {
    if |a| < |b| {
      CountPrefix(a, b[..|b| - 1], name);
    } else {
      assert a == b;
    }
  }

  /**
   * The events the rendered screen lets happen: the name box and the Join
   * button exist only on the login screen, the message box and the Send
   * button only on the chat screen, and nothing is typed or clicked once
   * the component has unmounted (here `listening` stands for "still
   * mounted": the listener is registered at mount and removed only by the
   * unmount cleanup). Deliveries can come at any time; the unmount only
   * while mounted.
   */
  predicate Enabled(s: State, e: Event) {
    match e
    case UsernameInput(_) => s.listening && View(s) == Login
    case JoinClick => s.listening && View(s) == Login
    case MessageInput(_) => s.listening && View(s) == Chat
    case SendClick => s.listening && View(s) == Chat
    case Delivery(_) => true
    case Unmount => s.listening
  }

  /** Appending one emission adds one to the count exactly when it carries `name`. */
  lemma CountSnoc(log: seq<Emission>, em: Emission, name: string)
    ensures Count(log + [em], name) == Count(log, name) + (if em.event == name then 1 else 0)
  {
    assert (log + [em])[..|log|] == log;
  }

  /**
   * On the chat screen the name box and the Join button are gone: however
   * the user then uses the screens, the name stays what it was and no
   * further `"join"` is emitted.
   */
  lemma {:induction false} ChatScreenLocksName(s: State, es: seq<Event>)
    requires s.isJoined && UiRun(s, es)
    ensures Run(s, es).isJoined
    ensures Run(s, es).username == s.username
    ensures Count(Run(s, es).emitted, JoinEvent) == Count(s.emitted, JoinEvent)
    decreases |es|
  {
    if es != [] {
      var t := Step(s, es[0]);
      if |t.emitted| == |s.emitted| + 1 {
        assert t.emitted == s.emitted + [t.emitted[|s.emitted|]];
        CountSnoc(s.emitted, t.emitted[|s.emitted|], JoinEvent);
      } else {
        assert t.emitted == s.emitted;
      }
      ChatScreenLocksName(t, es[1..]);
    }
  }

  /** Every event of `es` is enabled in the state it happens in. */
  ghost predicate UiRun(s: State, es: seq<Event>)
    decreases |es|
  {
    es == [] || (Enabled(s, es[0]) && UiRun(Step(s, es[0]), es[1..]))
  }

  /**
   * What the socket has seen from a component driven through its screens:
   * nothing before the user joins; after that, one `"join"` with the
   * (non-blank) name the user is shown under, then only `"sendMessage"`
   * payloads that carry that same name and a non-blank text.
   */
  ghost predicate SessionLog(s: State) {
    if !s.isJoined then s.emitted == []
    else
      && |s.emitted| > 0
      && s.emitted[0] == Emission(JoinEvent, Username(s.username))
      && !IsBlank(s.username)
      && forall i :: 1 <= i < |s.emitted| ==> IsSentBy(s.emitted[i], s.username)
  }

  /** `em` is a `"sendMessage"` of a non-blank text from `user`. */
  ghost predicate IsSentBy(em: Emission, user: string) {
    && em.event == SendMessageEvent
    && em.payload.MessageData?
    && em.payload.data.user == user
    && !IsBlank(em.payload.data.text)
  }

  /** Each enabled event keeps the session log's shape. */
  lemma StepKeepsSessionLog(s: State, e: Event)
    requires SessionLog(s) && Enabled(s, e)
    ensures SessionLog(Step(s, e))
  {
    var r := Step(s, e);
    if e.SendClick? && !IsBlank(s.message) {
      assert IsSentBy(r.emitted[|r.emitted| - 1], s.username);
    }
  }

  /**
   * Any session driven through the screens, from mounting on, emits at most
   * one `"join"`, emits it before any message, and stamps every message
   * with the name it joined under.
   */
  lemma {:induction false} UiRunKeepsSessionLog(s: State, es: seq<Event>)
    requires SessionLog(s) && UiRun(s, es)
    ensures SessionLog(Run(s, es))
    decreases |es|
  {
    if es != [] {
      StepKeepsSessionLog(s, es[0]);
      UiRunKeepsSessionLog(Step(s, es[0]), es[1..]);
    }
  }

  /** The same, for every session that starts at mounting. */
  lemma UiSessionFromMount(es: seq<Event>)
    requires UiRun(Mounted(), es)
    ensures SessionLog(Run(Mounted(), es))
  {
    UiRunKeepsSessionLog(Mounted(), es);
  }
}
