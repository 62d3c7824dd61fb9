/** The chat page: the conversation list with its search box, sending a message
    into the open conversation, opening a conversation, and the avatar rule of
    the message view. */
module ChatPage {
  import opened Common

  datatype MessageStatus = Sent | Delivered | Read

  /** A message; its `Date` timestamp is kept as the text the clock gave. */
  datatype Message = Message(id: string, senderId: string, content: string, timestamp: string, status: MessageStatus)

  datatype Chat = Chat(
    id: string,
    name: string,
    lastMessage: string,
    timestamp: string,
    unread: int,
    status: string,
    isGroup: bool,
    messages: seq<Message>)

  // ---------------------------------------------------------------------------
  // Derived values

  function NameFilter(search: string): Chat -> bool
  {
    (c: Chat) => ContainsIgnoreCase(c.name, search)
  }

  /** `filteredChats`: the conversations whose name contains the search text,
      ignoring case, in list order. */
  function FilteredChats(chats: seq<Chat>, search: string): (r: seq<Chat>)
    ensures Subsequence(r, chats)
    ensures forall k :: 0 <= k < |r| ==> r[k] in chats && ContainsIgnoreCase(r[k].name, search)
    ensures forall k :: 0 <= k < |chats| && ContainsIgnoreCase(chats[k].name, search) ==> chats[k] in r
    ensures KeepsCounts(r, chats, NameFilter(search))
  {
    FilterIsSubsequence(chats, NameFilter(search));
    FilterCounts(chats, NameFilter(search));
    Filter(chats, NameFilter(search))
  }

  /** A message shows its sender's avatar when it opens the conversation or its
      sender differs from the previous message's. */
  predicate ShowAvatar(messages: seq<Message>, index: nat)
    requires index < |messages|
  {
    index == 0 || messages[index - 1].senderId != messages[index].senderId
  }

  /** In a run of messages from one sender only the first shows the avatar. */
  lemma OneAvatarPerRun(messages: seq<Message>, start: nat, end: nat)
    requires start < end <= |messages|
    requires start == 0 || messages[start - 1].senderId != messages[start].senderId
    requires forall i :: start <= i < end ==> messages[i].senderId == messages[start].senderId
    ensures forall i :: start <= i < end ==> (ShowAvatar(messages, i) <==> i == start)
  {
  }

  /** `user?.id || '1'`. */
  function SenderId(user: Option<string>): (id: string)
    ensures id != ""
    ensures Truthy(user) ==> id == user.value
    ensures !Truthy(user) ==> id == "1"
  {
    OrDefault(user, "1")
  }

  // ---------------------------------------------------------------------------
  // Transitions

  /** A conversation after a message is sent into it: the message at the end, the
      preview set to its text and the time to 'Just now'. */
  function Append(c: Chat, m: Message): (r: Chat)
    ensures r.messages == c.messages + [m]
    ensures r.lastMessage == m.content && r.timestamp == "Just now"
    ensures r.id == c.id && r.name == c.name && r.unread == c.unread
    ensures r.status == c.status && r.isGroup == c.isGroup
  {
    c.(messages := c.messages + [m], lastMessage := m.content, timestamp := "Just now")
  }

  function IdIs(id: string): Chat -> bool
  {
    (c: Chat) => c.id == id
  }

  /** The list after a send: the conversations with the open one's id get the
      message, the others stay as they were. */
  function WithMessage(chats: seq<Chat>, chatId: string, m: Message): (r: seq<Chat>)
    ensures |r| == |chats|
    ensures forall k :: 0 <= k < |chats| && chats[k].id == chatId ==> r[k] == Append(chats[k], m)
    ensures forall k :: 0 <= k < |chats| && chats[k].id != chatId ==> r[k] == chats[k]
  {
    MapWhere(chats, IdIs(chatId), (c: Chat) => Append(c, m))
  }

  /** The list after a conversation is opened: its unread counter drops to 0. */
  function MarkRead(chats: seq<Chat>, chatId: string): (r: seq<Chat>)
    ensures |r| == |chats|
    ensures forall k :: 0 <= k < |chats| && chats[k].id == chatId ==> r[k] == chats[k].(unread := 0)
    ensures forall k :: 0 <= k < |chats| && chats[k].id != chatId ==> r[k] == chats[k]
  {
    MapWhere(chats, IdIs(chatId), (c: Chat) => c.(unread := 0))
  }

  /** The open conversation shows the same messages as its entries in the list. */
  predicate InSync(chats: seq<Chat>, selected: Chat)
  {
    forall k :: 0 <= k < |chats| && chats[k].id == selected.id ==> chats[k].messages == selected.messages
  }

  /** Sending appends the same message to the list entry and to the open
      conversation, so the two stay in step. */
  lemma SendKeepsInSync(chats: seq<Chat>, selected: Chat, m: Message)
    requires InSync(chats, selected)
    ensures InSync(WithMessage(chats, selected.id, m), selected.(messages := selected.messages + [m]))
  {
  }

  /** Opening a conversation taken from a list without repeated ids puts the two
      in step, and marking it read does not disturb that. */
  lemma SelectSyncs(chats: seq<Chat>, i: nat)
    requires i < |chats|
    requires forall p, q :: 0 <= p < q < |chats| ==> chats[p].id != chats[q].id
    ensures InSync(MarkRead(chats, chats[i].id), chats[i])
  {
  }

  /** The page's state that the two handlers change. */
  class ChatPageState {
    var chats: seq<Chat>
    var selectedChat: Option<Chat>
    var messageInput: string
    var showChatList: bool

    /** `handleSendMessage`: nothing happens when the input is blank after
        trimming or no conversation is open. Otherwise one 'sent' message with
        the untrimmed input goes at the end of the open conversation, in the list
        and in the open view, and the input is cleared. */
    method HandleSendMessage(id: string, now: string, user: Option<string>)
      modifies this
      ensures Trim(old(messageInput)) == [] || old(selectedChat).None? ==>
        chats == old(chats) && selectedChat == old(selectedChat) && messageInput == old(messageInput)
      ensures Trim(old(messageInput)) != [] && old(selectedChat).Some? ==>
        var m := Message(id, SenderId(user), old(messageInput), now, Sent);
        && chats == WithMessage(old(chats), old(selectedChat).value.id, m)
        && selectedChat == Some(old(selectedChat).value.(messages := old(selectedChat).value.messages + [m]))
        && messageInput == ""
      ensures showChatList == old(showChatList)
      ensures old(selectedChat).Some? && InSync(old(chats), old(selectedChat).value) ==>
        selectedChat.Some? && InSync(chats, selectedChat.value)
    {
      if Trim(messageInput) == [] || selectedChat.None? {
        return;
      }
      var sel := selectedChat.value;
      var m := Message(id, SenderId(user), messageInput, now, Sent);
      if InSync(chats, sel) {
        SendKeepsInSync(chats, sel, m);
      }
      chats := WithMessage(chats, sel.id, m);
      selectedChat := Some(sel.(messages := sel.messages + [m]));
      messageInput := "";
    }

    /** `handleSelectChat`: opens the conversation, hides the list and clears the
        unread counter of the conversations with its id. */
    method HandleSelectChat(chat: Chat)
      modifies this
      ensures selectedChat == Some(chat) && !showChatList
      ensures chats == MarkRead(old(chats), chat.id)
      ensures messageInput == old(messageInput)
    {
      selectedChat := Some(chat);
      showChatList := false;
      chats := MarkRead(chats, chat.id);
    }
  }
}
