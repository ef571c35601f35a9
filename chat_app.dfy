/**
 * The `App` component of the chat client as an object whose fields are its
 * React state. Each state setter call becomes a field assignment, and each
 * `socket.emit` appends one entry to the ghost field `emitted`; `listening`
 * records whether the component's `receiveMessage` listener is registered on
 * the shared socket. Every method is tied to `AppModel.Step`, so the session
 * lemmas proved there carry over to calls on an `App`: `RunMessages` and
 * `RunJoinedIffJoinEmitted` to any sequence of calls, and the session-log
 * lemmas only to sequences the screens allow (`UiRun`), which the class
 * itself does not enforce (`JoinChat` called twice emits two joins).
 */
module ChatApp {
  import opened JsStrings
  import opened AppModel

  class App {
    var username: string
    var isJoined: bool
    var message: string
    var messages: seq<ChatMessage>
    var listening: bool
    ghost var emitted: seq<Emission>

    /** The component's state as a value. */
    ghost function Model(): State
      reads this
    {
      State(username, isJoined, message, messages, listening, emitted)
    }

    /**
     * Mounting: the four `useState` initial values, then the mount effect
     * registers the `receiveMessage` listener. Nothing has been emitted.
     */
    constructor ()
      ensures username == "" && !isJoined && message == "" && messages == []
      ensures listening && emitted == []
      ensures Model() == Mounted()
    {
      username := "";
      isJoined := false;
      message := "";
      messages := [];
      listening := true;
      emitted := [];
    }

    /** The name box's `onChange`: `setUsername(e.target.value)`. */
    method SetUsername(value: string)
      modifies this
      ensures username == value
      ensures isJoined == old(isJoined) && message == old(message) && messages == old(messages)
      ensures listening == old(listening) && emitted == old(emitted)
      ensures Model() == Step(old(Model()), UsernameInput(value))
    {
      username := value;
    }

    /** The message box's `onChange`: `setMessage(e.target.value)`. */
    method SetMessage(value: string)
      modifies this
      ensures message == value
      ensures username == old(username) && isJoined == old(isJoined) && messages == old(messages)
      ensures listening == old(listening) && emitted == old(emitted)
      ensures Model() == Step(old(Model()), MessageInput(value))
    {
      message := value;
    }

    /**
     * `joinChat`: a blank name (empty or white space only) is ignored; any
     * other name is emitted on `"join"` exactly as typed, untrimmed, and the
     * user is switched to the chat screen. Nothing else changes.
     */
    method JoinChat()
      modifies this
      ensures IsBlank(old(username)) ==> isJoined == old(isJoined) && emitted == old(emitted)
      ensures !IsBlank(old(username)) ==>
                isJoined && emitted == old(emitted) + [Emission(JoinEvent, Username(old(username)))]
      ensures username == old(username) && message == old(message) && messages == old(messages)
      ensures listening == old(listening)
      ensures Model() == Step(old(Model()), JoinClick)
    {
      if HasContent(username) {
        emitted := emitted + [Emission(JoinEvent, Username(username))];
        isJoined := true;
      }
    }

    /**
     * `sendMessage`: a blank input is ignored and stays in the box; any other
     * input is emitted on `"sendMessage"` as `{user: username, text: message}`
     * with the text untrimmed, and the box is cleared. The message is not put
     * into `messages`: it shows only if the server delivers it back.
     */
    method SendMessage()
      modifies this
      ensures IsBlank(old(message)) ==> message == old(message) && emitted == old(emitted)
      ensures !IsBlank(old(message)) ==>
                && message == ""
                && emitted == old(emitted) + [Emission(SendMessageEvent, MessageData(ChatMessage(old(username), old(message))))]
      ensures username == old(username) && isJoined == old(isJoined) && messages == old(messages)
      ensures listening == old(listening)
      ensures Model() == Step(old(Model()), SendClick)
    {
      if HasContent(message) {
        var messageData := ChatMessage(username, message);
        emitted := emitted + [Emission(SendMessageEvent, MessageData(messageData))];
        message := "";
      }
    }

    /**
     * The `receiveMessage` listener: while registered, appends `data` after
     * every earlier entry, joined or not; once removed, deliveries change
     * nothing. Nothing is emitted.
     */
    method ReceiveMessage(data: ChatMessage)
      modifies this
      ensures listening ==> messages == old(messages) + [data]
      ensures !listening ==> messages == old(messages)
      ensures username == old(username) && isJoined == old(isJoined) && message == old(message)
      ensures listening == old(listening) && emitted == old(emitted)
      ensures Model() == Step(old(Model()), Delivery(data))
    {
      if listening {
        messages := messages + [data];
      }
    }

    /** The mount effect's cleanup: `socket.off("receiveMessage")`. */
    method Unmount()
      modifies this
      ensures !listening
      ensures username == old(username) && isJoined == old(isJoined) && message == old(message)
      ensures messages == old(messages) && emitted == old(emitted)
      ensures Model() == Step(old(Model()), Event.Unmount)
    {
      listening := false;
    }
  }

  /**
   * A client of `App`: a user types a name and joins, sends " hi" (with a
   * leading space, which is sent as typed), and the server delivers it back.
   * The message appears once, only after the delivery, and the socket saw
   * one join followed by one message.
   */
  method EchoScenario()
  {
    var app := new App();
    app.SetUsername("ann");
    assert !IsWhitespace("ann"[0]);
    app.JoinChat();
    assert app.isJoined;
    app.SetMessage(" hi");
    assert !IsWhitespace(" hi"[1]);
    app.SendMessage();
    assert app.message == "" && app.messages == [];
    app.ReceiveMessage(ChatMessage("ann", " hi"));
    assert app.messages == [ChatMessage("ann", " hi")];
    assert app.emitted == [
      Emission(JoinEvent, Username("ann")),
      Emission(SendMessageEvent, MessageData(ChatMessage("ann", " hi")))
    ];
  }
}
