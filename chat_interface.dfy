/**
 * ChatInterface.jsx: the message list of the scheduling chat and the
 * transitions `handleSendMessage` makes on it. The awaited `onSubmit` call
 * is split at its await: `BeginSend` runs up to the call and returns the
 * text that would be sent, `FinishSend` runs after it with the call's
 * outcome.
 */
module ChatInterface {
  import opened Wrappers
  import opened Text

  datatype Message = Message(id: int, text: string, isUser: bool)

  /** Whether the awaited `onSubmit(messageToSend)` resolved or threw. */
  datatype Outcome = Resolved | Rejected

  const Greeting: string := "Hi! I'm Chronos, your AI scheduling assistant. How can I help you today?"
  const ProcessingText: string := "Processing your request..."
  const SuccessText: string := "I've processed your request. Check your calendar for updates!"
  const ErrorText: string := "Sorry, I encountered an error while processing your request. Please try again."

  /** The reply that replaces the placeholder for a given outcome. */
  function ReplyText(outcome: Outcome): (t: string)
    ensures outcome == Resolved ==> t == SuccessText
    ensures outcome == Rejected ==> t == ErrorText
    ensures t == SuccessText <==> outcome == Resolved
  {
    match outcome
    case Resolved => SuccessText
    case Rejected => ErrorText
  }

  /** The ids are 1, 2, 3, ... in list order, so they are unique React keys. */
  predicate IdsSequential(ms: seq<Message>)
  {
    forall i :: 0 <= i < |ms| ==> ms[i].id == i + 1
  }

  lemma SequentialIdsAreUnique(ms: seq<Message>, i: nat, j: nat)
    requires IdsSequential(ms) && i < |ms| && j < |ms| && i != j
    ensures ms[i].id != ms[j].id
  {
  }

  class Chat {
    var messages: seq<Message>
    /** The text field's value. */
    var newMessage: string

    ghost predicate Valid()
      reads this
    {
      |messages| >= 1 && IdsSequential(messages)
    }

    /** The initial state: one bot greeting with id 1 and an empty input. */
    constructor ()
      ensures Valid()
      ensures messages == [Message(1, Greeting, false)] && newMessage == ""
    {
      messages := [Message(1, Greeting, false)];
      newMessage := "";
    }

    /** The input's `onChange`. */
    method SetInput(text: string)
      requires Valid()
      modifies this
      ensures Valid()
      ensures newMessage == text && messages == old(messages)
    {
      newMessage := text;
    }

    /**
     * `handleSendMessage` up to the awaited call. Blank input changes
     * nothing and sends nothing. Otherwise the untrimmed text is appended as a
     * user message with id `messages.length + 1`, the input is cleared, the
     * placeholder is appended with id `prev.length + 1`, and the text is
     * returned as the argument of `onSubmit`.
     */
    method BeginSend() returns (sent: Option<string>)
      requires Valid()
      modifies this
      ensures Valid()
      ensures Trim(old(newMessage)) == "" ==>
        sent == None && messages == old(messages) && newMessage == old(newMessage)
      ensures Trim(old(newMessage)) != "" ==>
        && sent == Some(old(newMessage))
        && newMessage == ""
        && messages == old(messages) + [
             Message(|old(messages)| + 1, old(newMessage), true),
             Message(|old(messages)| + 2, ProcessingText, false)]
    {
      if Trim(newMessage) == "" {
        return None;
      }
      var userMessage := Message(|messages| + 1, newMessage, true);
      messages := messages + [userMessage];
      var messageToSend := newMessage;
      newMessage := "";
      messages := messages + [Message(|messages| + 1, ProcessingText, false)];
      sent := Some(messageToSend);
    }

    /**
     * `handleSendMessage` after the awaited call: the last message (the
     * placeholder) is replaced by the confirmation or the error text, with id
     * `prev.length`, which is the id of the message it replaces. Every earlier
     * message, the list length and the input are unchanged.
     */
    method FinishSend(outcome: Outcome)
      requires Valid()
      modifies this
      ensures Valid()
      ensures |messages| == |old(messages)|
      ensures messages[..|messages| - 1] == old(messages)[..|old(messages)| - 1]
      ensures messages[|messages| - 1] == Message(|old(messages)|, ReplyText(outcome), false)
      ensures messages[|messages| - 1].id == old(messages)[|old(messages)| - 1].id
      ensures newMessage == old(newMessage)
    {
      var prev := messages;
      messages := prev[..|prev| - 1] + [Message(|prev|, ReplyText(outcome), false)];
    }

    /**
     * The whole of `handleSendMessage` when nothing happens while the call is
     * awaited: a non-blank input adds the user message and the reply to the
     * list and leaves the input empty.
     */
    method SendMessage(outcome: Outcome) returns (sent: Option<string>)
      requires Valid()
      modifies this
      ensures Valid()
      ensures Trim(old(newMessage)) == "" ==>
        sent == None && messages == old(messages) && newMessage == old(newMessage)
      ensures Trim(old(newMessage)) != "" ==>
        && sent == Some(old(newMessage))
        && newMessage == ""
        && messages == old(messages) + [
             Message(|old(messages)| + 1, old(newMessage), true),
             Message(|old(messages)| + 2, ReplyText(outcome), false)]
    {
      ghost var before := messages;
      sent := BeginSend();
      if sent.Some? {
        FinishSend(outcome);
        assert messages[..|messages| - 1] == before + [Message(|before| + 1, sent.value, true)];
        assert messages == messages[..|messages| - 1] + [messages[|messages| - 1]];
      }
    }
  }
}
