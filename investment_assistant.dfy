/**
 * The chat panel (`InvestmentAssistant`): a message log that opens with a
 * greeting and grows by the user's message and a canned reply each time
 * something other than whitespace is sent.
 */
module InvestmentAssistant {
  import opened Common

  datatype Role = Ai | User

  datatype Message = Message(role: Role, content: string)

  const Greeting: Message :=
    Message(Ai, "Hi! I'm your AI trading advisor. Ask me anything about the markets! \U{1F4A1}")

  const CannedReply: Message :=
    Message(Ai, "Tech stocks rose today due to positive earnings reports from major companies. The AI sector is showing particularly strong growth with a 5.2% increase across the board. \U{1F4C8}")

  /** The user's messages in a log, in order. */
  function UserMessages(log: seq<Message>): seq<string> {
    if log == [] then []
    else UserMessages(log[..|log| - 1]) + (if log[|log| - 1].role == User then [log[|log| - 1].content] else [])
  }

  /** Every user message in a log is answered by the canned reply right after it. */
  predicate Answered(log: seq<Message>) {
    forall i :: 0 <= i < |log| && log[i].role == User ==> i + 1 < |log| && log[i + 1] == CannedReply
  }

  /** Appending a user message and its reply keeps every user message answered. */
  lemma AppendKeepsAnswered(log: seq<Message>, text: string)
    requires Answered(log)
    ensures Answered(log + [Message(User, text), CannedReply])
  {
    var l := log + [Message(User, text), CannedReply];
    forall i | 0 <= i < |l| && l[i].role == User
      ensures i + 1 < |l| && l[i + 1] == CannedReply
    {
      if i < |log| {
        assert l[i] == log[i];
        if i + 1 < |log| {
          assert l[i + 1] == log[i + 1];
        }
      } else {
        assert i == |log|;
      }
    }
  }

  class Assistant {
    var isOpen: bool
    var message: string
    var messages: seq<Message>

    /** The log starts with the greeting and answers every user message. */
    ghost predicate Valid()
      reads this
    {
      |messages| >= 1 && messages[0] == Greeting && Answered(messages)
    }

    constructor ()
      ensures Valid() && messages == [Greeting] && message == "" && !isOpen
    {
      isOpen := false;
      message := "";
      messages := [Greeting];
    }

    /** The round button: opens a closed panel and closes an open one. */
    method Toggle()
      modifies this
      ensures isOpen == !old(isOpen) && messages == old(messages) && message == old(message)
    {
      isOpen := !isOpen;
    }

    /** The close button in the panel's header. */
    method Close()
      modifies this
      ensures !isOpen && messages == old(messages) && message == old(message)
    {
      isOpen := false;
    }

    /** Typing into the input. */
    method SetMessage(text: string)
      modifies this
      ensures message == text && messages == old(messages) && isOpen == old(isOpen)
    {
      message := text;
    }

    /**
     * `handleSend`: a blank input changes nothing; otherwise the untrimmed
     * text and the canned reply are appended and the input is cleared.
     */
    method HandleSend()
      requires Valid()
      modifies this
      ensures Valid()
      ensures Blank(old(message)) ==> messages == old(messages) && message == old(message)
      ensures !Blank(old(message)) ==>
        messages == old(messages) + [Message(User, old(message)), CannedReply] && message == ""
      ensures |messages| >= |old(messages)| && messages[..|old(messages)|] == old(messages)
      ensures isOpen == old(isOpen)
    {
      if Trim(message) == [] {
        return;
      }
      AppendKeepsAnswered(messages, message);
      messages := messages + [Message(User, message), CannedReply];
      message := "";
    }
  }

  /** Sending a message records it as the user's latest. */
  lemma SendRecordsUserText(log: seq<Message>, text: string)
    ensures UserMessages(log + [Message(User, text), CannedReply]) == UserMessages(log) + [text]
  {
    var l1 := log + [Message(User, text)];
    var l2 := l1 + [CannedReply];
    assert log + [Message(User, text), CannedReply] == l2;
    assert l2[..|l2| - 1] == l1 && l2[|l2| - 1].role == Ai;
    assert UserMessages(l2) == UserMessages(l1);
    assert l1[..|l1| - 1] == log;
  }
}
