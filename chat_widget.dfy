/** `components/ChatWidget.tsx`: the floating chat window. It holds one message thread shared
    by every friend, and stays mounted while closed, so scheduled auto-replies still arrive.
    Each sent message schedules one reply; `pendingReplies` counts the scheduled replies that
    have not fired yet (the 1500 ms delay itself is not modelled). */
module ChatWidget {
  import opened Wrappers
  import opened Text
  import opened Constants
  import Seqs

  datatype Sender = Me | Them

  datatype ChatMessage = ChatMessage(text: string, sender: Sender)

  const GREETING: ChatMessage := ChatMessage("Hey! How's the course going?", Them)
  const AUTO_REPLY: ChatMessage := ChatMessage("That sounds awesome! Keep it up! \U{1F525}", Them)

  /** The thread after `handleSend` with input `input`: a blank input (`!inputText.trim()`)
      sends nothing; otherwise the input is appended as typed, untrimmed. */
  function AfterSend(messages: seq<ChatMessage>, input: string): (r: seq<ChatMessage>)
    ensures r == messages <==> IsBlank(input)
    ensures !IsBlank(input) ==> r == messages + [ChatMessage(input, Me)]
  {
    TrimEmptyIffBlank(input);
    if Trim(input) == "" then messages else messages + [ChatMessage(input, Me)]
  }

  /** The messages sent by `who`, as a filter predicate. */
  function SentBy(who: Sender): ChatMessage -> bool {
    (m: ChatMessage) => m.sender == who
  }

  /** Number of messages from `who`: the length of the thread filtered to that sender. */
  function CountFrom(s: seq<ChatMessage>, who: Sender): (n: nat)
    ensures n == |Seqs.Filter(s, SentBy(who))|
    ensures n <= |s|
  {
    if s == [] then 0
    else
      var init, last := s[..|s| - 1], s[|s| - 1];
      assert s == init + [last];
      Seqs.FilterAppend(init, [last], SentBy(who));
      CountFrom(init, who) + (if last.sender == who then 1 else 0)
  }

  lemma CountFromAppend(s: seq<ChatMessage>, m: ChatMessage, who: Sender)
    ensures CountFrom(s + [m], who) == CountFrom(s, who) + (if m.sender == who then 1 else 0)
  {
    assert (s + [m])[..|s|] == s;
  }

  class Widget {
    var selectedFriend: Option<Friend>
    var messages: seq<ChatMessage>
    var inputText: string
    var pendingReplies: nat

    /** The greeting opens the thread, and every message of mine is answered exactly once:
        by a reply already in the thread or by one still scheduled. */
    ghost predicate Valid()
      reads this
    {
      && |messages| >= 1 && messages[0] == GREETING
      && CountFrom(messages, Them) + pendingReplies == 1 + CountFrom(messages, Me)
      && (forall i :: 0 <= i < |messages| && messages[i].sender == Them ==>
            messages[i] == GREETING || messages[i] == AUTO_REPLY)
    }

    constructor ()
      ensures Valid()
      ensures selectedFriend == None && messages == [GREETING] && inputText == "" && pendingReplies == 0
    {
      selectedFriend := None;
      messages := [GREETING];
      inputText := "";
      pendingReplies := 0;
      assert [GREETING][..0] == [];
    }

    /** Picking a friend from the list, which is shown while none is selected. */
    method SelectFriend(f: Friend)
      requires f in FRIENDS
      modifies this
      ensures selectedFriend == Some(f)
      ensures messages == old(messages) && inputText == old(inputText) && pendingReplies == old(pendingReplies)
    {
      selectedFriend := Some(f);
    }

    /** "Back": returns to the friend list; the thread is kept. */
    method Back()
      modifies this
      ensures selectedFriend == None
      ensures messages == old(messages) && inputText == old(inputText) && pendingReplies == old(pendingReplies)
    {
      selectedFriend := None;
    }

    method SetInput(v: string)
      modifies this
      ensures inputText == v
      ensures selectedFriend == old(selectedFriend) && messages == old(messages) && pendingReplies == old(pendingReplies)
    {
      inputText := v;
    }

    /** `handleSend`; the form exists only while a friend is selected. A non-blank input is
        sent, the field cleared and a reply scheduled; a blank one changes nothing. */
    method Send()
      requires Valid() && selectedFriend.Some?
      modifies this
      ensures Valid()
      ensures messages == AfterSend(old(messages), old(inputText))
      ensures selectedFriend == old(selectedFriend)
      ensures IsBlank(old(inputText)) ==> inputText == old(inputText) && pendingReplies == old(pendingReplies)
      ensures !IsBlank(old(inputText)) ==> inputText == "" && pendingReplies == old(pendingReplies) + 1
    {
      TrimEmptyIffBlank(inputText);
      if Trim(inputText) == "" {
        return;
      }
      var m := ChatMessage(inputText, Me);
      CountFromAppend(messages, m, Them);
      CountFromAppend(messages, m, Me);
      messages := messages + [m];
      inputText := "";
      pendingReplies := pendingReplies + 1;
    }

    /** A scheduled auto-reply fires: appended after whatever the thread holds by then. */
    method AutoReply()
      requires Valid() && pendingReplies > 0
      modifies this
      ensures Valid()
      ensures messages == old(messages) + [AUTO_REPLY] && pendingReplies == old(pendingReplies) - 1
      ensures selectedFriend == old(selectedFriend) && inputText == old(inputText)
    {
      CountFromAppend(messages, AUTO_REPLY, Them);
      CountFromAppend(messages, AUTO_REPLY, Me);
      messages := messages + [AUTO_REPLY];
      pendingReplies := pendingReplies - 1;
    }

    /** With no reply outstanding, the thread holds exactly one reply per message sent, plus
        the greeting. */
    lemma AllAnswered()
      requires Valid() && pendingReplies == 0
      ensures CountFrom(messages, Them) == CountFrom(messages, Me) + 1
    {
    }
  }
}
