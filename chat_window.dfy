/** `ChatWindow`: the open conversation's message list, fed by the history
    fetch, the socket's "receive_message" events and optimistic sends. */
module ChatWindow {
  import opened Common
  import opened Types
  import opened Text

  /** An event written to the socket. */
  datatype Emitted = SendMessage(chatId: string, content: string)

  /** The list after a "receive_message" event: appended iff it belongs to this chat. */
  function Received(ms: seq<Message>, chatId: string, m: Message): (r: seq<Message>)
    ensures ms <= r
    ensures m.chatId == chatId ==> r == ms + [m]
    ensures m.chatId != chatId ==> r == ms
  {
    if m.chatId == chatId then ms + [m] else ms
  }

  /** The optimistic entry for a send at time `now` (its id is `String(now)`). */
  function Optimistic(chatId: string, content: string, user: User, now: nat): (m: Message)
    ensures m.content == content && m.chatId == chatId && m.senderId == user.id && !m.read
    ensures m.sender == Sender(user.id, user.name, user.image)
  {
    Message(IntToString(now), content, chatId, user.id, now, false, Sender(user.id, user.name, user.image))
  }

  /** The list after a non-blank send: one optimistic entry with a user, none without. */
  function AfterSend(ms: seq<Message>, chatId: string, content: string, user: Option<User>, now: nat): (r: seq<Message>)
    ensures ms <= r
    ensures |r| == |ms| + (if user.Some? then 1 else 0)
    ensures user.Some? ==> r[|ms|] == Optimistic(chatId, content, user.value, now)
  {
    if user.Some? then ms + [Optimistic(chatId, content, user.value, now)] else ms
  }

  function CountContent(ms: seq<Message>, content: string): nat {
    CountWhere(ms, (m: Message) => m.content == content)
  }

  /** A signed-in send followed by the server echoing the same message back
      shows the text twice more: the optimistic entry is never reconciled. */
  lemma EchoDuplicates(ms: seq<Message>, chatId: string, content: string, user: User, now: nat, echo: Message)
    requires echo.chatId == chatId && echo.content == content
    ensures CountContent(Received(AfterSend(ms, chatId, content, Some(user), now), chatId, echo), content)
      == CountContent(ms, content) + 2
  {
    var p := (m: Message) => m.content == content;
    var opt := Optimistic(chatId, content, user, now);
    FilterConcat(ms, [opt], p);
    FilterConcat(ms + [opt], [echo], p);
    assert Filter([opt], p) == [opt];
    assert Filter([echo], p) == [echo];
  }

  class Window {
    const chatId: string
    var messages: seq<Message>
    var newMessage: string
    var isLoading: bool
    /** The events written to the socket so far. */
    var emitted: seq<Emitted>

    constructor(chatId: string)
      ensures this.chatId == chatId && messages == [] && newMessage == "" && !isLoading && emitted == []
    {
      this.chatId := chatId;
      messages := [];
      newMessage := "";
      isLoading := false;
      emitted := [];
    }

    /** `fetchMessages`: the history replaces the whole list. */
    method FetchMessages(outcome: Result<seq<Message>>)
      modifies this
      ensures outcome.Ok? ==> messages == outcome.value
      ensures outcome.Err? ==> messages == old(messages)
      ensures !isLoading
      ensures newMessage == old(newMessage) && emitted == old(emitted)
    {
      isLoading := true;
      if outcome.Ok? {
        messages := outcome.value;
      }
      isLoading := false;
    }

    /** The socket's "receive_message" listener. */
    method Receive(m: Message)
      modifies this
      ensures messages == Received(old(messages), chatId, m)
      ensures newMessage == old(newMessage) && emitted == old(emitted) && isLoading == old(isLoading)
    {
      if m.chatId == chatId {
        messages := messages + [m];
      }
    }

    /** Typing in the input. */
    method SetInput(text: string)
      modifies this
      ensures newMessage == text
      ensures messages == old(messages) && emitted == old(emitted) && isLoading == old(isLoading)
    {
      newMessage := text;
    }

    /** `handleSendMessage`: a blank input does nothing; otherwise the untrimmed
        text is emitted, the optimistic entry appended when signed in, and the input cleared. */
    method Send(user: Option<User>, now: nat)
      modifies this
      ensures IsBlank(old(newMessage)) ==>
        messages == old(messages) && newMessage == old(newMessage) && emitted == old(emitted)
      ensures !IsBlank(old(newMessage)) ==>
        && emitted == old(emitted) + [SendMessage(chatId, old(newMessage))]
        && messages == AfterSend(old(messages), chatId, old(newMessage), user, now)
        && newMessage == ""
      ensures isLoading == old(isLoading)
    {
      if IsBlank(newMessage) {
        return;
      }
      emitted := emitted + [SendMessage(chatId, newMessage)];
      if user.Some? {
        messages := messages + [Optimistic(chatId, newMessage, user.value, now)];
      }
      newMessage := "";
    }
  }
}
