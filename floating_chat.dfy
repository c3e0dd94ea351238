/** The floating assistant widget (components/FloatingChat.tsx): a panel that opens and
    closes, greets once on its first opening, and keeps a transcript of questions and
    replies. */
module FloatingChat {
  import opened Types
  import opened Text

  const WelcomeText: string :=
    "Hello! I'm the LifeLink AI Assistant. You can ask me about blood donation eligibility, how to use the app, or any health-related questions. How can I help you today?"

  function Welcome(now: int): (m: ChatMessage)
    ensures m.id == "welcome" && m.role == FromModel && m.text == WelcomeText
  {
    ChatMessage("welcome", FromModel, WelcomeText, now)
  }

  /** After the welcome message, questions and replies alternate, a question first. */
  predicate Alternates(msgs: seq<ChatMessage>) {
    forall i :: 1 <= i < |msgs| ==> (msgs[i].role == FromUser <==> i % 2 == 1)
  }

  class ChatWidget {
    var isOpen: bool
    var messages: seq<ChatMessage>
    var inputText: string
    var isTyping: bool
    var hasInitialized: bool

    /** The widget's invariant: it has been initialised whenever it is open; before
        that the transcript is empty; after it the transcript starts with the welcome
        message, questions and replies alternate, and a reply is pending exactly when
        the last message is a question. */
    ghost predicate Valid()
      reads this
    {
      && (isOpen ==> hasInitialized)
      && (!hasInitialized ==> messages == [] && !isTyping)
      && (hasInitialized ==>
            && |messages| >= 1
            && messages[0].id == "welcome" && messages[0].role == FromModel && messages[0].text == WelcomeText
            && Alternates(messages)
            && (isTyping <==> |messages| % 2 == 0))
    }

    /** Initially closed, with an empty transcript and the latch unset. */
    constructor ()
      ensures Valid()
      ensures !isOpen && messages == [] && inputText == "" && !isTyping && !hasInitialized
    {
      isOpen := false;
      messages := [];
      inputText := "";
      isTyping := false;
      hasInitialized := false;
    }

    /** The launcher button followed by the initialisation effect: the first opening
        replaces the transcript with the welcome message and sets the latch; later
        openings keep the transcript. */
    method Open(now: int)
      requires Valid()
      modifies this`isOpen, this`messages, this`hasInitialized
      ensures Valid() && isOpen && hasInitialized
      ensures !old(hasInitialized) ==> messages == [Welcome(now)]
      ensures old(hasInitialized) ==> messages == old(messages)
    {
      isOpen := true;
      if !hasInitialized {
        messages := [Welcome(now)];
        hasInitialized := true;
      }
    }

    /** Either header button: only the panel closes. */
    method Close()
      requires Valid()
      modifies this`isOpen
      ensures Valid() && !isOpen
    {
      isOpen := false;
    }

    method SetInput(text: string)
      requires Valid()
      modifies this`inputText
      ensures Valid() && inputText == text
    {
      inputText := text;
    }

    /** The send button is disabled while the input is blank or a reply is pending. */
    function SendDisabled(): (disabled: bool)
      reads this
      ensures !disabled <==> !isTyping && !AllSpace(inputText)
    {
      IsBlank(inputText) || isTyping
    }

    /** `handleSendMessage` up to the awaited reply. The form exists only while the panel
        is open, and the button is disabled while a reply is pending. A blank input
        changes nothing; otherwise the untrimmed input is appended as a question, the
        input cleared and the typing indicator set. */
    method SubmitInput(id: string, now: int) returns (sent: bool)
      requires Valid() && isOpen && !isTyping
      modifies this`messages, this`inputText, this`isTyping
      ensures Valid()
      ensures sent == !IsBlank(old(inputText))
      ensures sent ==>
        && messages == old(messages) + [ChatMessage(id, FromUser, old(inputText), now)]
        && inputText == "" && isTyping
      ensures !sent ==> messages == old(messages) && inputText == old(inputText) && !isTyping
    {
      if IsBlank(inputText) {
        return false;
      }
      messages := messages + [ChatMessage(id, FromUser, inputText, now)];
      inputText := "";
      isTyping := true;
      sent := true;
    }

    /** The rest of `handleSendMessage`: the reply arrives (whether or not the panel is
        still open), is appended, and the typing indicator clears. */
    method ReceiveReply(id: string, now: int, reply: string)
      requires Valid() && isTyping
      modifies this`messages, this`isTyping
      ensures Valid()
      ensures messages == old(messages) + [ChatMessage(id, FromModel, reply, now)] && !isTyping
    {
      messages := messages + [ChatMessage(id, FromModel, reply, now)];
      isTyping := false;
    }

    /** The whole of `handleSendMessage`: the transcript grows by the question and then
        the reply, or not at all when the input is blank. */
    method HandleSendMessage(userId: string, askedAt: int, replyId: string, repliedAt: int, reply: string)
      requires Valid() && isOpen && !isTyping
      modifies this`messages, this`inputText, this`isTyping
      ensures Valid() && !isTyping
      ensures IsBlank(old(inputText)) ==> messages == old(messages) && inputText == old(inputText)
      ensures !IsBlank(old(inputText)) ==>
        && inputText == ""
        && messages == old(messages) + [ChatMessage(userId, FromUser, old(inputText), askedAt),
                                        ChatMessage(replyId, FromModel, reply, repliedAt)]
    {
      var sent := SubmitInput(userId, askedAt);
      if sent {
        ReceiveReply(replyId, repliedAt, reply);
      }
    }
  }
}
