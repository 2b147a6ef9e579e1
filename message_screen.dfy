/** The chat composer: a non-blank draft is appended as a new message and the draft cleared. */
module Messages {
  import opened Text

  datatype Message = Message(id: int, text: string, sender: string, time: string, isRead: bool)

  const MockMessages: seq<Message> := [
    Message(1, "Hey! How are you doing?", "other", "2:30 PM", true),
    Message(2, "I'm doing great! Just posted some new photos.", "me", "2:32 PM", true),
    Message(3, "They look amazing! I especially love the sunset one.", "other", "2:35 PM", true),
    Message(4, "Thanks! That was taken at Malibu beach.", "me", "2:37 PM", true)
  ]

  /** The messages after `sendMessage` with the given draft; `time` stands for the clock reading. */
  function AfterSend(messages: seq<Message>, draft: string, time: string): (r: seq<Message>)
    ensures IsBlank(draft) ==> r == messages
    ensures !IsBlank(draft) ==> |r| == |messages| + 1 && r[..|messages|] == messages
    ensures !IsBlank(draft) ==> r[|messages|] == Message(|messages| + 1, draft, "me", time, false)
  {
    if IsBlank(draft) then messages else messages + [Message(|messages| + 1, draft, "me", time, false)]
  }

  /** The ids are 1, 2, ..., n in order. */
  predicate SequentialIds(messages: seq<Message>) {
    forall i :: 0 <= i < |messages| ==> messages[i].id == i + 1
  }

  lemma MockIdsSequential()
    ensures SequentialIds(MockMessages)
  {
  }

  /** Sending keeps the ids 1..n sequential, so they stay distinct. */
  lemma SendKeepsIdsSequential(messages: seq<Message>, draft: string, time: string)
    requires SequentialIds(messages)
    ensures SequentialIds(AfterSend(messages, draft, time))
    ensures forall i, j :: 0 <= i < j < |AfterSend(messages, draft, time)| ==>
      AfterSend(messages, draft, time)[i].id != AfterSend(messages, draft, time)[j].id
  {
  }

  /** The message is stored as typed, surrounding spaces included. */
  lemma StoredUntrimmed(time: string)
    ensures AfterSend([], " hi ", time) == [Message(1, " hi ", "me", time, false)]
  {
    assert !IsWhitespace('h');
    assert Trim(" hi ") != [] by {
      assert !AllWhitespace(" hi ") by { assert " hi "[1] == 'h'; }
    }
  }

  class MessageScreen {
    var messages: seq<Message>
    var newMessage: string

    constructor ()
      ensures messages == MockMessages && newMessage == ""
    {
      messages, newMessage := MockMessages, "";
    }

    /** The send button is disabled while the draft is blank. */
    predicate SendDisabled()
      reads this
    {
      IsBlank(newMessage)
    }

    /** `onChangeText` of the input. */
    method EditDraft(text: string)
      modifies this`newMessage
      ensures newMessage == text
    {
      newMessage := text;
    }

    method SendMessage(time: string)
      modifies this
      ensures messages == AfterSend(old(messages), old(newMessage), time)
      ensures newMessage == if IsBlank(old(newMessage)) then old(newMessage) else ""
    {
      if !IsBlank(newMessage) {
        var msg := Message(|messages| + 1, newMessage, "me", time, false);
        messages := messages + [msg];
        newMessage := "";
      }
    }
  }
}
