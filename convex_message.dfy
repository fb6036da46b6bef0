/**
 * The message handlers: append a message to a chat the caller owns, and list a chat's messages.
 * Both fail by throwing, modelled as `Err` with the thrown message.
 */
module ConvexMessage {
  import opened Wrappers
  import opened Schema
  import opened ConvexDb

  function PermissionToCreateMessage(): string {
    "User does not have permission to create a message in this chat"
  }

  function PermissionToAccessMessages(): string {
    "User does not have permission to access messages in this chat"
  }

  /**
   * `createMessage`: the chat must exist and belong to the caller (a signed-out caller owns
   * nothing); the message goes to the end of the table with a fresh id, which is returned.
   */
  method CreateMessage(db: Database, caller: Option<UserId>, content: string, chatId: ChatId, role: Role, parts: string)
    returns (r: Result<MessageId, string>)
    requires db.Valid()
    modifies db
    ensures db.Valid()
    ensures FindChat(old(db.chats), chatId).None? ==> r == Err("Chat not found") && unchanged(db)
    ensures FindChat(old(db.chats), chatId).Some? && caller != Some(FindChat(old(db.chats), chatId).value.userId)
      ==> r == Err(PermissionToCreateMessage()) && unchanged(db)
    ensures FindChat(old(db.chats), chatId).Some? && caller == Some(FindChat(old(db.chats), chatId).value.userId) ==>
      && r == Ok(old(db.nextId))
      && db.messages == old(db.messages) + [MessageDoc(old(db.nextId), old(db.nextId), content, role, chatId, parts, caller.value, None, None)]
      && db.chats == old(db.chats) && db.users == old(db.users) && db.storage == old(db.storage)
      && db.nextId == old(db.nextId) + 1
  {
    var chat := FindChat(db.chats, chatId);
    if chat.None? {
      return Err("Chat not found");
    }
    if caller != Some(chat.value.userId) {
      return Err(PermissionToCreateMessage());
    }
    assert chatId in ChatIds(db.chats);
    var id := db.InsertMessage(content, role, chatId, parts, caller.value);
    return Ok(id);
  }

  /**
   * `getMessages`: a signed-in, known caller who owns the chat gets its messages in creation
   * order. There is no guard for a signed-out caller: the missing id goes straight to
   * `ctx.db.get`, which throws its own argument error.
   */
  function GetMessages(users: set<UserId>, chats: seq<ChatDoc>, messages: seq<MessageDoc>, caller: Option<UserId>, chatId: ChatId)
    : (r: Result<seq<MessageDoc>, string>)
    ensures caller.None? <==> r == Err(InvalidIdArgument())
    ensures (caller.Some? && caller.value !in users) <==> r == Err("User not found")
    ensures caller.Some? && caller.value in users && FindChat(chats, chatId).None? ==> r == Err("Chat not found")
    ensures caller.Some? && caller.value in users && FindChat(chats, chatId).Some? && FindChat(chats, chatId).value.userId != caller.value
      ==> r == Err(PermissionToAccessMessages())
    ensures r.Ok? <==> caller.Some? && caller.value in users && FindChat(chats, chatId).Some? && FindChat(chats, chatId).value.userId == caller.value
    ensures r.Ok? ==> forall m :: m in r.value <==> m in messages && m.chatId == chatId
  {
    if caller.None? then Err(InvalidIdArgument())
    else if caller.value !in users then Err("User not found")
    else
      match FindChat(chats, chatId)
      case None => Err("Chat not found")
      case Some(chat) =>
        if chat.userId != caller.value then Err(PermissionToAccessMessages())
        else Ok(MessagesOfChat(messages, chatId))
  }

  /** The listed messages run from the oldest to the newest. */
  lemma GetMessagesOldestFirst(users: set<UserId>, chats: seq<ChatDoc>, messages: seq<MessageDoc>, caller: Option<UserId>,
                               chatId: ChatId, bound: nat)
    requires MessagesOrdered(messages, bound)
    ensures var r := GetMessages(users, chats, messages, caller, chatId);
      r.Ok? ==> forall i, j :: 0 <= i < j < |r.value| ==> r.value[i].creationTime < r.value[j].creationTime
  {
    MessagesOfChatOrdered(messages, chatId, bound);
  }
}
