/** `components/InboxContent.tsx`: the conversation list and the open conversation. The
    conversations are constant: opening one does not clear its unread marker. On narrow
    screens `view` decides whether the list or the conversation is shown. */
module InboxContent {
  import opened Wrappers

  datatype Conversation = Conversation(id: int, name: string, avatar: string, lastMessage: string,
                                       time: string, unread: nat, isGroup: bool)

  datatype View = List | Chat

  const CONVERSATIONS: seq<Conversation> := [
    Conversation(1, "Jason Ranti", "https://i.pravatar.cc/150?u=jason", "Can you review my wireframes?", "2m", 2, false),
    Conversation(2, "Angelina Lee", "https://i.pravatar.cc/150?u=angelina", "The meeting is rescheduled.", "1h", 0, false),
    Conversation(3, "Design Team", "https://i.pravatar.cc/150?u=team", "New assets uploaded to drive.", "3h", 0, true)
  ]

  /** `CONVERSATIONS.find(c => c.id === id)`: the first conversation with that id, if any. */
  function Find(convs: seq<Conversation>, id: int): (r: Option<Conversation>)
    ensures r.None? <==> forall i :: 0 <= i < |convs| ==> convs[i].id != id
    ensures r.Some? ==> exists i :: 0 <= i < |convs| && convs[i] == r.value && r.value.id == id &&
                                    forall j :: 0 <= j < i ==> convs[j].id != id
  {
    if convs == [] then None
    else if convs[0].id == id then Some(convs[0])
    else
      var r := Find(convs[1..], id);
      FindShift(convs, id, r);
      r
  }

  /** A match found in the tail is, in the whole list, one place further on. */
  lemma FindShift(convs: seq<Conversation>, id: int, r: Option<Conversation>)
    requires convs != [] && convs[0].id != id
    requires r.Some? ==> exists i :: 0 <= i < |convs[1..]| && convs[1..][i] == r.value && r.value.id == id &&
                                     forall j :: 0 <= j < i ==> convs[1..][j].id != id
    ensures r.Some? ==> exists i :: 0 <= i < |convs| && convs[i] == r.value && r.value.id == id &&
                                    forall j :: 0 <= j < i ==> convs[j].id != id
  {
    if r.Some? {
      var i :| 0 <= i < |convs[1..]| && convs[1..][i] == r.value && r.value.id == id &&
               forall j :: 0 <= j < i ==> convs[1..][j].id != id;
      assert convs[i + 1] == r.value;
      assert forall j :: 1 <= j < i + 1 ==> convs[j] == convs[1..][j - 1];
    }
  }

  predicate DistinctIds(convs: seq<Conversation>) {
    forall i, j :: 0 <= i < j < |convs| ==> convs[i].id != convs[j].id
  }

  /** With distinct ids, looking up a conversation's id finds that very conversation. */
  lemma {:induction false} FindById(convs: seq<Conversation>, i: nat)
    requires DistinctIds(convs) && i < |convs|
    ensures Find(convs, convs[i].id) == Some(convs[i])
  {
    var r := Find(convs, convs[i].id);
    var k :| 0 <= k < |convs| && convs[k] == r.value && r.value.id == convs[i].id &&
             forall j :: 0 <= j < k ==> convs[j].id != convs[i].id;
    assert k == i;
  }

  predicate IsConversationId(id: int) {
    exists i :: 0 <= i < |CONVERSATIONS| && CONVERSATIONS[i].id == id
  }

  class Inbox {
    var activeChat: int
    var view: View

    ghost predicate Valid()
      reads this
    {
      IsConversationId(activeChat)
    }

    /** The first conversation is active, and the list is shown. */
    constructor ()
      ensures Valid() && activeChat == CONVERSATIONS[0].id && view == List
    {
      activeChat := CONVERSATIONS[0].id;
      view := List;
    }

    /** `handleChatSelect`. */
    method SelectChat(id: int)
      requires IsConversationId(id)
      modifies this
      ensures Valid() && activeChat == id && view == Chat
    {
      activeChat := id;
      view := Chat;
    }

    /** The back arrow. */
    method BackToList()
      modifies this
      ensures activeChat == old(activeChat) && view == List
    {
      view := List;
    }

    /** The conversation whose name and avatar head the open conversation. */
    function Active(): (r: Option<Conversation>)
      reads this
      requires Valid()
      ensures r.Some? && r.value.id == activeChat && r.value in CONVERSATIONS
    {
      Find(CONVERSATIONS, activeChat)
    }

    /** A conversation is highlighted in the list exactly when it is the active one. */
    predicate Highlighted(c: Conversation)
      reads this
    {
      c.id == activeChat
    }
  }

  /** Exactly one listed conversation is highlighted at a time. */
  lemma {:induction false} OneHighlighted(inbox: Inbox)
    requires inbox.Valid()
    ensures exists i :: 0 <= i < |CONVERSATIONS| && inbox.Highlighted(CONVERSATIONS[i])
    ensures forall i, j :: 0 <= i < j < |CONVERSATIONS| ==>
              !(inbox.Highlighted(CONVERSATIONS[i]) && inbox.Highlighted(CONVERSATIONS[j]))
  {
    assert DistinctIds(CONVERSATIONS);
  }
}
