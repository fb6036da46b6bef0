/**
 * The chat handlers: create, list, rename, delete (with the chat's messages and stored files),
 * share, and read a shared chat. Mutations are methods on the database; queries are functions of
 * the tables. The caller is the authenticated user id, or None when nobody is signed in.
 */
module ConvexChat {
  import opened Wrappers
  import opened Schema
  import opened ConvexDb

  /** The `{ success, data?, message? }` objects the handlers return. */
  datatype Response<+T> = Success(data: T, message: Option<string>) | Failure(error: string)

  /** An entry of `initialMessages`. */
  datatype InitialMessage = InitialMessage(content: string, role: Role, parts: string)

  datatype ShareInfo = ShareInfo(chatId: ChatId, shareId: string)

  /** What a shared-chat page receives; the owner gets no messages and `isYourChat`. */
  datatype SharedView = SharedView(chat: ChatDoc, messages: seq<MessageDoc>, isYourChat: bool)

  /** The signed-in check every handler of this file starts with. */
  function Authenticate(users: set<UserId>, caller: Option<UserId>): (r: Result<UserId, string>)
    ensures r.Ok? <==> caller.Some? && caller.value in users
    ensures r.Ok? ==> r.value == caller.value
    ensures caller.None? ==> r == Err("User not authenticated")
    ensures caller.Some? && caller.value !in users ==> r == Err("User not found")
  {
    match caller
    case None => Err("User not authenticated")
    case Some(u) => if u in users then Ok(u) else Err("User not found")
  }

  /**
   * The checks of rename, delete and share: signed in, the chat exists and the caller owns it;
   * `action` names the refused action in the permission message.
   */
  function OwnedChat(users: set<UserId>, chats: seq<ChatDoc>, caller: Option<UserId>, chatId: ChatId, action: string)
    : (r: Result<ChatDoc, string>)
    ensures r.Ok? <==> Authenticate(users, caller).Ok? && FindChat(chats, chatId).Some? && FindChat(chats, chatId).value.userId == caller.value
    ensures r.Ok? ==> r.value == FindChat(chats, chatId).value && r.value.docId == chatId && r.value in chats
    ensures Authenticate(users, caller).Err? ==> r == Err(Authenticate(users, caller).error)
    ensures Authenticate(users, caller).Ok? && FindChat(chats, chatId).None? ==> r == Err("Chat not found")
    ensures Authenticate(users, caller).Ok? && FindChat(chats, chatId).Some? && FindChat(chats, chatId).value.userId != caller.value
      ==> r == Err("User does not have permission to " + action + " this chat")
  {
    match Authenticate(users, caller)
    case Err(e) => Err(e)
    case Ok(u) =>
      match FindChat(chats, chatId)
      case None => Err("Chat not found")
      case Some(chat) => if chat.userId != u then Err("User does not have permission to " + action + " this chat") else Ok(chat)
  }

  /** The message records `createChat` inserts for its initial messages, ids from `first` on. */
  function InitialRecords(initial: seq<InitialMessage>, chatId: ChatId, owner: UserId, first: nat): (r: seq<MessageDoc>)
    ensures |r| == |initial|
    ensures forall i :: 0 <= i < |r| ==>
      && r[i].docId == r[i].creationTime == first + i
      && r[i].content == initial[i].content && r[i].role == initial[i].role && r[i].parts == initial[i].parts
      && r[i].chatId == chatId && r[i].userId == owner
      && r[i].attachments.None? && r[i].storageIds.None?
  {
    seq(|initial|, i requires 0 <= i < |initial| =>
      MessageDoc(first + i, first + i, initial[i].content, initial[i].role, chatId, initial[i].parts, owner, None, None))
  }

  /** The records of one more initial message: one more record, with the next id. */
  lemma InitialRecordsSnoc(initial: seq<InitialMessage>, i: nat, chatId: ChatId, owner: UserId, first: nat)
    requires i < |initial|
    ensures InitialRecords(initial[..i + 1], chatId, owner, first)
         == InitialRecords(initial[..i], chatId, owner, first)
            + [MessageDoc(first + i, first + i, initial[i].content, initial[i].role, chatId, initial[i].parts, owner, None, None)]
  {
  }

  function InitialOrEmpty(initial: Option<seq<InitialMessage>>): seq<InitialMessage> {
    if initial.Some? then initial.value else []
  }

  /**
   * `createChat`: a signed-in, known user gets a new chat owned by them, followed by one message
   * record per initial message, in order.
   */
  method CreateChat(db: Database, caller: Option<UserId>, title: string, initialMessages: Option<seq<InitialMessage>>)
    returns (r: Response<ChatId>)
    requires db.Valid()
    modifies db
    ensures db.Valid()
    ensures Authenticate(old(db.users), caller).Err? ==> r == Failure(Authenticate(old(db.users), caller).error) && unchanged(db)
    ensures Authenticate(old(db.users), caller).Ok? ==>
      && r == Success(old(db.nextId), Some("Chat created successfully"))
      && db.chats == old(db.chats) + [ChatDoc(old(db.nextId), old(db.nextId), title, caller.value, None, None, None)]
      && db.messages == old(db.messages) + InitialRecords(InitialOrEmpty(initialMessages), old(db.nextId), caller.value, old(db.nextId) + 1)
      && db.users == old(db.users) && db.storage == old(db.storage)
      && db.nextId == old(db.nextId) + 1 + |InitialOrEmpty(initialMessages)|
  {
    var auth := Authenticate(db.users, caller);
    if auth.Err? {
      return Failure(auth.error);
    }
    var owner := auth.value;
    var chatId := db.InsertChat(title, owner);
    assert chatId in ChatIds(db.chats) by {
      assert db.chats[|db.chats| - 1].docId == chatId;
    }
    InsertInitialMessages(db, InitialOrEmpty(initialMessages), chatId, owner);
    return Success(chatId, Some("Chat created successfully"));
  }

  /** The loop of `createChat` that inserts one message record per initial message, in order. */
  method InsertInitialMessages(db: Database, initial: seq<InitialMessage>, chatId: ChatId, owner: UserId)
    requires db.Valid() && chatId in ChatIds(db.chats)
    modifies db
    ensures db.Valid()
    ensures db.messages == old(db.messages) + InitialRecords(initial, chatId, owner, old(db.nextId))
    ensures db.nextId == old(db.nextId) + |initial|
    ensures db.chats == old(db.chats) && db.users == old(db.users) && db.storage == old(db.storage)
  {
    ghost var first := db.nextId;
    var i := 0;
    while i < |initial|
      invariant 0 <= i <= |initial|
      invariant db.Valid()
      invariant db.nextId == first + i
      invariant db.messages == old(db.messages) + InitialRecords(initial[..i], chatId, owner, first)
      invariant db.chats == old(db.chats) && db.users == old(db.users) && db.storage == old(db.storage)
    {
      var message := initial[i];
      ghost var before := InitialRecords(initial[..i], chatId, owner, first);
      var _ := db.InsertMessage(message.content, message.role, chatId, message.parts, owner);
      InitialRecordsSnoc(initial, i, chatId, owner, first);
      assert db.messages == old(db.messages) + (before + [Last(db.messages)]);
      i := i + 1;
    }
    assert initial[..|initial|] == initial;
  }

  /** The new chat's messages are exactly its initial messages: no older message refers to a fresh id. */
  lemma CreatedChatHoldsInitialMessages(chats: seq<ChatDoc>, messages: seq<MessageDoc>, bound: nat,
                                        title: string, owner: UserId, initial: seq<InitialMessage>)
    requires ChatsOrdered(chats, bound) && MessagesReferToChats(messages, chats)
    ensures MessagesOfChat(messages + InitialRecords(initial, bound, owner, bound + 1), bound)
         == InitialRecords(initial, bound, owner, bound + 1)
  {
    var records := InitialRecords(initial, bound, owner, bound + 1);
    forall i | 0 <= i < |messages| ensures messages[i].chatId != bound {
      assert messages[i].chatId in ChatIds(chats);
      var c :| c in chats && c.docId == messages[i].chatId;
      var j :| 0 <= j < |chats| && chats[j] == c;
    }
    OfChatEmpty(messages, bound);
    OfChatAppend(messages, records, bound);
  }

  lemma {:induction false} OfChatAppend(a: seq<MessageDoc>, b: seq<MessageDoc>, chatId: ChatId)
    requires MessagesOfChat(a, chatId) == []
    requires forall i :: 0 <= i < |b| ==> b[i].chatId == chatId
    ensures MessagesOfChat(a + b, chatId) == b
  {
    if |b| > 0 {
      var init := b[..|b| - 1];
      var last := b[|b| - 1];
      assert init + [last] == b;
      assert a + b == (a + init) + [last];
      OfChatAppend(a, init, chatId);
      MessagesOfChatSnoc(a + init, last, chatId);
    } else {
      assert a + b == a;
    }
  }

  function Reverse<T>(s: seq<T>): (r: seq<T>)
    ensures |r| == |s| && forall i :: 0 <= i < |s| ==> r[i] == s[|s| - 1 - i]
  {
    seq(|s|, i requires 0 <= i < |s| => s[|s| - 1 - i])
  }

  /** `getChats`: the caller's chats, newest first. */
  function GetChats(users: set<UserId>, chats: seq<ChatDoc>, caller: Option<UserId>): (r: Response<seq<ChatDoc>>)
    ensures r.Success? <==> Authenticate(users, caller).Ok?
    ensures r.Failure? ==> r.error == Authenticate(users, caller).error
    ensures r.Success? ==> r.message == Some("Chats retrieved successfully")
    ensures r.Success? ==> forall c :: c in r.data <==> c in chats && c.userId == caller.value
  {
    match Authenticate(users, caller)
    case Err(e) => Failure(e)
    case Ok(u) =>
      var own := ChatsOfUser(chats, u);
      assert forall c :: c in Reverse(own) <==> c in own by {
        forall c ensures c in Reverse(own) ==> c in own {
          if c in Reverse(own) {
            var i :| 0 <= i < |own| && Reverse(own)[i] == c;
          }
        }
        forall c ensures c in own ==> c in Reverse(own) {
          if c in own {
            var i :| 0 <= i < |own| && own[i] == c;
            assert Reverse(own)[|own| - 1 - i] == c;
          }
        }
      }
      Success(Reverse(own), Some("Chats retrieved successfully"))
  }

  lemma {:induction false} ChatsOfUserOrdered(chats: seq<ChatDoc>, userId: UserId, bound: nat)
    requires ChatsOrdered(chats, bound)
    ensures ChatsOrdered(ChatsOfUser(chats, userId), bound)
  {
    if |chats| > 0 {
      var init := chats[..|chats| - 1];
      var last := chats[|chats| - 1];
      ChatsOrderedInit(chats, bound);
      ChatsOfUserOrdered(init, userId, bound);
      assert chats == init + [last];
      if last.userId == userId {
        assert ChatsOfUser(chats, userId) == ChatsOfUser(init, userId) + [last];
        ChatsSelectionSnoc(ChatsOfUser(init, userId), init, last, bound);
      } else {
        assert ChatsOfUser(chats, userId) == ChatsOfUser(init, userId);
      }
    }
  }

  /** The list `getChats` returns runs from the most recently created chat to the oldest. */
  lemma GetChatsNewestFirst(users: set<UserId>, chats: seq<ChatDoc>, caller: Option<UserId>, bound: nat)
    requires ChatsOrdered(chats, bound)
    ensures var r := GetChats(users, chats, caller);
      r.Success? ==> forall i, j :: 0 <= i < j < |r.data| ==> r.data[i].creationTime > r.data[j].creationTime
  {
    if Authenticate(users, caller).Ok? {
      ChatsOfUserOrdered(chats, caller.value, bound);
    }
  }

  /** `renameChat`: the owner's chat gets the new title; nothing else changes. */
  method RenameChat(db: Database, caller: Option<UserId>, chatId: ChatId, title: string) returns (r: Response<ChatId>)
    requires db.Valid()
    modifies db
    ensures db.Valid()
    ensures var owned := OwnedChat(old(db.users), old(db.chats), caller, chatId, "rename");
      && (owned.Err? ==> r == Failure(owned.error) && unchanged(db))
      && (owned.Ok? ==>
           && r == Success(chatId, Some("Chat renamed successfully"))
           && db.chats == PatchChat(old(db.chats), chatId, owned.value.(title := title))
           && db.messages == old(db.messages) && db.users == old(db.users) && db.storage == old(db.storage)
           && db.nextId == old(db.nextId))
  {
    var owned := OwnedChat(db.users, db.chats, caller, chatId, "rename");
    if owned.Err? {
      return Failure(owned.error);
    }
    db.Patch(chatId, owned.value.(title := title));
    return Success(chatId, Some("Chat renamed successfully"));
  }

  /** After a patch, looking the chat up yields the patched record; every other record is as it was. */
  lemma PatchedChatFound(chats: seq<ChatDoc>, bound: nat, id: ChatId, update: ChatDoc, other: ChatId)
    requires ChatsOrdered(chats, bound) && FindChat(chats, id).Some? && update.docId == id
    ensures FindChat(PatchChat(chats, id, update), id) == Some(update)
    ensures other != id ==> FindChat(PatchChat(chats, id, update), other) == FindChat(chats, other)
  {
    PatchFind(chats, id, update, id);
    PatchFind(chats, id, update, other);
  }

  lemma {:induction false} PatchFind(chats: seq<ChatDoc>, id: ChatId, update: ChatDoc, key: ChatId)
    requires update.docId == id
    ensures FindChat(PatchChat(chats, id, update), key)
         == if key != id then FindChat(chats, key) else if FindChat(chats, id).Some? then Some(update) else None
    decreases |chats|
  {
    if |chats| > 0 {
      assert PatchChat(chats, id, update)[1..] == PatchChat(chats[1..], id, update);
      PatchFind(chats[1..], id, update, key);
    }
  }

  /**
   * `deleteChatAndMessages`: the owner's chat and all of its messages are deleted, and every
   * stored object those messages referenced is removed, except those whose deletion fails
   * (`failing`); such failures are swallowed.
   */
  method DeleteChatAndMessages(db: Database, caller: Option<UserId>, chatId: ChatId, failing: set<StorageId>)
    returns (r: Response<bool>)
    requires db.Valid()
    modifies db
    ensures db.Valid()
    ensures var owned := OwnedChat(old(db.users), old(db.chats), caller, chatId, "delete");
      && (owned.Err? ==> r == Failure(owned.error) && unchanged(db))
      && (owned.Ok? ==>
           && r == Success(true, Some("Chat deleted successfully"))
           && db.chats == ChatsWithoutId(old(db.chats), chatId)
           && db.messages == MessagesOfOtherChats(old(db.messages), chatId)
           && db.storage == old(db.storage) - (StorageOf(MessagesOfChat(old(db.messages), chatId)) - failing)
           && db.users == old(db.users) && db.nextId == old(db.nextId))
  {
    var owned := OwnedChat(db.users, db.chats, caller, chatId, "delete");
    if owned.Err? {
      return Failure(owned.error);
    }
    var chat := owned.value;
    var messages := MessagesOfChat(db.messages, chat.docId);
    ghost var messages0 := db.messages;
    DeleteMessages(db, messages, failing);
    DeletingChatIdsKeepsOthers(messages0, chatId, db.nextId);
    assert db.messages == MessagesOfOtherChats(messages0, chatId);
    db.DeleteChat(chatId);
    return Success(true, Some("Chat deleted successfully"));
  }

  /** The loop of `deleteChatAndMessages`: each message's stored objects, then the message itself. */
  method DeleteMessages(db: Database, messages: seq<MessageDoc>, failing: set<StorageId>)
    requires db.Valid()
    modifies db
    ensures db.Valid()
    ensures db.messages == WithoutIds(old(db.messages), IdsOf(messages))
    ensures db.storage == old(db.storage) - (StorageOf(messages) - failing)
    ensures db.chats == old(db.chats) && db.users == old(db.users) && db.nextId == old(db.nextId)
  {
    ghost var messages0 := db.messages;
    ghost var storage0 := db.storage;
    WithoutNoIds(messages0);
    assert IdsOf(messages[..0]) == {};
    var k := 0;
    while k < |messages|
      invariant 0 <= k <= |messages|
      invariant db.Valid()
      invariant db.messages == WithoutIds(messages0, IdsOf(messages[..k]))
      invariant db.storage == storage0 - (StorageOf(messages[..k]) - failing)
      invariant db.chats == old(db.chats) && db.users == old(db.users) && db.nextId == old(db.nextId)
    {
      DeleteMessageAndObjects(db, messages[k], failing);
      DeleteStep(messages0, messages, k);
      SubtractInTurn(storage0, StorageOf(messages[..k]), StorageOfMessage(messages[k]), failing);
      k := k + 1;
    }
    assert messages[..|messages|] == messages;
  }

  /** One turn of that loop: the message's stored objects, then the message. */
  method DeleteMessageAndObjects(db: Database, message: MessageDoc, failing: set<StorageId>)
    requires db.Valid()
    modifies db
    ensures db.Valid()
    ensures db.messages == WithoutIds(old(db.messages), {message.docId})
    ensures db.storage == old(db.storage) - (StorageOfMessage(message) - failing)
    ensures db.chats == old(db.chats) && db.users == old(db.users) && db.nextId == old(db.nextId)
  {
    if message.storageIds.Some? {
      DeleteStoredObjects(db, message.storageIds.value, failing);
    }
    db.DeleteMessage(message.docId);
  }

  lemma DeleteStep(table: seq<MessageDoc>, messages: seq<MessageDoc>, k: nat)
    requires k < |messages|
    ensures WithoutIds(WithoutIds(table, IdsOf(messages[..k])), {messages[k].docId}) == WithoutIds(table, IdsOf(messages[..k + 1]))
    ensures StorageOf(messages[..k + 1]) == StorageOf(messages[..k]) + StorageOfMessage(messages[k])
  {
    assert messages[..k + 1][..k] == messages[..k];
    assert messages[..k + 1] == messages[..k] + [messages[k]];
    IdsOfSnoc(messages[..k], messages[k]);
    WithoutIdsSnoc(table, IdsOf(messages[..k]), messages[k].docId);
  }

  /** Removing `a` and then `b`, each but the failing ones, removes `a + b` but the failing ones. */
  lemma SubtractInTurn(s: set<StorageId>, a: set<StorageId>, b: set<StorageId>, failing: set<StorageId>)
    ensures s - (a - failing) - (b - failing) == s - (a + b - failing)
  {
  }

  /** The inner loop: every deletion is attempted; a failing one is logged and skipped. */
  method DeleteStoredObjects(db: Database, storageIds: seq<StorageId>, failing: set<StorageId>)
    requires db.Valid()
    modifies db
    ensures db.Valid()
    ensures db.storage == old(db.storage) - (Elements(storageIds) - failing)
    ensures db.messages == old(db.messages) && db.chats == old(db.chats) && db.users == old(db.users) && db.nextId == old(db.nextId)
  {
    var j := 0;
    while j < |storageIds|
      invariant 0 <= j <= |storageIds|
      invariant db.Valid()
      invariant db.storage == old(db.storage) - (Elements(storageIds[..j]) - failing)
      invariant db.messages == old(db.messages) && db.chats == old(db.chats) && db.users == old(db.users) && db.nextId == old(db.nextId)
    {
      var _ := db.DeleteStorage(storageIds[j], failing);
      assert Elements(storageIds[..j + 1]) == Elements(storageIds[..j]) + {storageIds[j]} by {
        assert storageIds[..j + 1] == storageIds[..j] + [storageIds[j]];
      }
      j := j + 1;
    }
    assert storageIds[..|storageIds|] == storageIds;
  }

  function Last<T>(s: seq<T>): T
    requires |s| > 0
  {
    s[|s| - 1]
  }

  /**
   * `createShareChat`: the owner's chat with at least one message records its latest message as
   * the last shared one and gets the share id `freshShareId` (a random UUID in the source).
   */
  method CreateShareChat(db: Database, caller: Option<UserId>, chatId: ChatId, freshShareId: string)
    returns (r: Response<ShareInfo>)
    requires db.Valid()
    modifies db
    ensures db.Valid()
    ensures var owned := OwnedChat(old(db.users), old(db.chats), caller, chatId, "share");
      var ofChat := MessagesOfChat(old(db.messages), chatId);
      && (owned.Err? ==> r == Failure(owned.error) && unchanged(db))
      && (owned.Ok? && |ofChat| == 0 ==> r == Failure("Chat has no messages to share") && unchanged(db))
      && (owned.Ok? && |ofChat| > 0 ==>
           && r == Success(ShareInfo(chatId, freshShareId), Some("Chat shared successfully"))
           && db.chats == PatchChat(old(db.chats), chatId,
                owned.value.(lastSharedMessageId := Some(Last(ofChat).docId), shareId := Some(freshShareId)))
           && db.messages == old(db.messages) && db.users == old(db.users) && db.storage == old(db.storage)
           && db.nextId == old(db.nextId))
  {
    var owned := OwnedChat(db.users, db.chats, caller, chatId, "share");
    if owned.Err? {
      return Failure(owned.error);
    }
    var chat := owned.value;
    var ofChat := MessagesOfChat(db.messages, chat.docId);
    if |ofChat| == 0 {
      return Failure("Chat has no messages to share");
    }
    var lastMessage := Last(ofChat);
    var withLast := chat.(lastSharedMessageId := Some(lastMessage.docId));
    db.Patch(chatId, withLast);
    PatchChatTwice(old(db.chats), chatId, withLast, withLast.(shareId := Some(freshShareId)));
    PatchedChatFound(old(db.chats), db.nextId, chatId, withLast, chatId);
    db.Patch(chatId, withLast.(shareId := Some(freshShareId)));
    return Success(ShareInfo(chat.docId, freshShareId), Some("Chat shared successfully"));
  }

  lemma PatchChatTwice(chats: seq<ChatDoc>, id: ChatId, first: ChatDoc, second: ChatDoc)
    requires first.docId == id
    ensures PatchChat(PatchChat(chats, id, first), id, second) == PatchChat(chats, id, second)
  {
  }

  /** The `by_shareId` index: the earliest chat carrying that share id. */
  function FindByShareId(chats: seq<ChatDoc>, shareId: string): (r: Option<ChatDoc>)
    ensures r.Some? ==> r.value in chats && r.value.shareId == Some(shareId)
    ensures r.None? ==> forall i :: 0 <= i < |chats| ==> chats[i].shareId != Some(shareId)
  {
    if |chats| == 0 then None
    else if chats[0].shareId == Some(shareId) then Some(chats[0])
    else FindByShareId(chats[1..], shareId)
  }

  /** The `by_chatId` index range: a chat's messages created no later than `cutoff`, oldest first. */
  function MessagesUpTo(messages: seq<MessageDoc>, chatId: ChatId, cutoff: nat): (r: seq<MessageDoc>)
    ensures forall m :: m in r <==> m in messages && m.chatId == chatId && m.creationTime <= cutoff
  {
    if |messages| == 0 then []
    else
      var init := MessagesUpTo(messages[..|messages| - 1], chatId, cutoff);
      var last := messages[|messages| - 1];
      assert forall m :: m in messages <==> m in messages[..|messages| - 1] || m == last;
      init + (if last.chatId == chatId && last.creationTime <= cutoff then [last] else [])
  }

  /**
   * `getSharedChatWithMessages`: the chat with that share id; its owner sees it with no messages
   * and `isYourChat`; anybody else, signed in or not, sees the chat's messages up to and
   * including the last shared one. `Err` is a throw: a chat with a share id but no
   * `lastSharedMessageId` hands `undefined` to `ctx.db.get`.
   */
  function GetSharedChatWithMessages(chats: seq<ChatDoc>, messages: seq<MessageDoc>, caller: Option<UserId>, shareId: string)
    : (r: Result<Response<SharedView>, string>)
    ensures FindByShareId(chats, shareId).None? <==> r == Ok(Failure("Shared chat not found"))
    ensures r.Err? <==> FindByShareId(chats, shareId).Some? && caller != Some(FindByShareId(chats, shareId).value.userId)
                        && FindByShareId(chats, shareId).value.lastSharedMessageId.None?
    ensures r.Err? ==> r.error == InvalidIdArgument()
    ensures r.Ok? && r.value.Success? ==> r.value.data.chat == FindByShareId(chats, shareId).value && r.value.data.chat.shareId == Some(shareId)
    ensures r.Ok? && r.value.Success? && r.value.data.isYourChat <==> r.Ok? && r.value.Success? && caller == Some(r.value.data.chat.userId)
    ensures r.Ok? && r.value.Success? && r.value.data.isYourChat ==> r.value.data.messages == [] && r.value.message.None?
    ensures r.Ok? && r.value.Success? && !r.value.data.isYourChat ==> r.value.message == Some("Shared chat retrieved")
    ensures FindByShareId(chats, shareId).Some? && caller != Some(FindByShareId(chats, shareId).value.userId)
            && FindByShareId(chats, shareId).value.lastSharedMessageId.Some? ==>
      var chat := FindByShareId(chats, shareId).value;
      var lastShared := FindMessage(messages, chat.lastSharedMessageId.value);
      && (lastShared.None? ==> r == Ok(Failure("No messages found for this chat")))
      && (lastShared.Some? ==>
           && r.Ok? && r.value.Success? && !r.value.data.isYourChat
           && r.value.data.messages == MessagesUpTo(messages, chat.docId, lastShared.value.creationTime)
           && forall m :: m in r.value.data.messages <==>
                m in messages && m.chatId == chat.docId && m.creationTime <= lastShared.value.creationTime)
  {
    match FindByShareId(chats, shareId)
    case None => Ok(Failure("Shared chat not found"))
    case Some(chat) =>
      if caller == Some(chat.userId) then Ok(Success(SharedView(chat, [], true), None))
      else if chat.lastSharedMessageId.None? then Err(InvalidIdArgument())
      else
        match FindMessage(messages, chat.lastSharedMessageId.value)
        case None => Ok(Failure("No messages found for this chat"))
        case Some(m) => Ok(Success(SharedView(chat, MessagesUpTo(messages, chat.docId, m.creationTime), false), Some("Shared chat retrieved")))
  }

  /**
   * The throw cannot happen on a database built by these handlers: `createShareChat` sets
   * `lastSharedMessageId` before it sets `shareId`, and no other handler sets either.
   */
  lemma SharedChatsDoNotThrow(chats: seq<ChatDoc>, messages: seq<MessageDoc>, caller: Option<UserId>, shareId: string)
    requires forall c :: c in chats && c.shareId.Some? ==> c.lastSharedMessageId.Some?
    ensures GetSharedChatWithMessages(chats, messages, caller, shareId).Ok?
  {
  }

  /** The shared listing is in ascending creation order, as the source's `order("asc")` asks. */
  lemma SharedViewAscending(chats: seq<ChatDoc>, messages: seq<MessageDoc>, bound: nat, caller: Option<UserId>, shareId: string)
    requires MessagesOrdered(messages, bound)
    ensures var r := GetSharedChatWithMessages(chats, messages, caller, shareId);
      r.Ok? && r.value.Success? ==>
        forall i, j :: 0 <= i < j < |r.value.data.messages| ==> r.value.data.messages[i].creationTime < r.value.data.messages[j].creationTime
  {
    var chat := FindByShareId(chats, shareId);
    if chat.Some? && caller != Some(chat.value.userId) && chat.value.lastSharedMessageId.Some? {
      var m := FindMessage(messages, chat.value.lastSharedMessageId.value);
      if m.Some? {
        MessagesUpToOrdered(messages, chat.value.docId, m.value.creationTime, bound);
      }
    }
  }

  lemma {:induction false} MessagesUpToOrdered(messages: seq<MessageDoc>, chatId: ChatId, cutoff: nat, bound: nat)
    requires MessagesOrdered(messages, bound)
    ensures MessagesOrdered(MessagesUpTo(messages, chatId, cutoff), bound)
  {
    if |messages| > 0 {
      var init := messages[..|messages| - 1];
      var last := messages[|messages| - 1];
      MessagesOrderedInit(messages, bound);
      MessagesUpToOrdered(init, chatId, cutoff, bound);
      assert messages == init + [last];
      if last.chatId == chatId && last.creationTime <= cutoff {
        assert MessagesUpTo(messages, chatId, cutoff) == MessagesUpTo(init, chatId, cutoff) + [last];
        MessagesSelectionSnoc(MessagesUpTo(init, chatId, cutoff), init, last, bound);
      } else {
        assert MessagesUpTo(messages, chatId, cutoff) == MessagesUpTo(init, chatId, cutoff);
      }
    }
  }

  /** Every message of the chat is no later than the chat's latest message. */
  lemma {:induction false} UpToLatestIsAll(messages: seq<MessageDoc>, chatId: ChatId, cutoff: nat, bound: nat)
    requires MessagesOrdered(messages, bound)
    requires forall i :: 0 <= i < |messages| && messages[i].chatId == chatId ==> messages[i].creationTime <= cutoff
    ensures MessagesUpTo(messages, chatId, cutoff) == MessagesOfChat(messages, chatId)
  {
    if |messages| > 0 {
      var init := messages[..|messages| - 1];
      MessagesOrderedInit(messages, bound);
      assert forall i :: 0 <= i < |init| ==> init[i] == messages[i];
      UpToLatestIsAll(init, chatId, cutoff, bound);
    }
  }

  /** The shared messages are an initial segment of the chat's messages. */
  lemma {:induction false} SharedMessagesArePrefix(messages: seq<MessageDoc>, chatId: ChatId, cutoff: nat, bound: nat)
    requires MessagesOrdered(messages, bound)
    ensures MessagesUpTo(messages, chatId, cutoff) <= MessagesOfChat(messages, chatId)
  {
    if |messages| > 0 {
      var init := messages[..|messages| - 1];
      var last := messages[|messages| - 1];
      MessagesOrderedInit(messages, bound);
      SharedMessagesArePrefix(init, chatId, cutoff, bound);
      var up := MessagesUpTo(init, chatId, cutoff);
      var all := MessagesOfChat(init, chatId);
      if last.chatId == chatId {
        assert MessagesOfChat(messages, chatId) == all + [last];
        if last.creationTime <= cutoff {
          assert forall i :: 0 <= i < |init| ==> init[i].creationTime < last.creationTime;
          UpToLatestIsAll(init, chatId, cutoff, bound);
          assert MessagesUpTo(messages, chatId, cutoff) == up + [last];
        } else {
          assert MessagesUpTo(messages, chatId, cutoff) == up;
        }
      } else {
        assert MessagesOfChat(messages, chatId) == all;
        assert MessagesUpTo(messages, chatId, cutoff) == up;
      }
    }
  }

  /** The shared messages end exactly at the shared message. */
  lemma {:induction false} SharedMessagesEndAtShared(messages: seq<MessageDoc>, m: MessageDoc, bound: nat)
    requires MessagesOrdered(messages, bound) && m in messages
    ensures var r := MessagesUpTo(messages, m.chatId, m.creationTime); |r| > 0 && Last(r) == m
  {
    var init := messages[..|messages| - 1];
    var last := messages[|messages| - 1];
    if last == m {
      assert MessagesUpTo(messages, m.chatId, m.creationTime) == MessagesUpTo(init, m.chatId, m.creationTime) + [m];
    } else {
      var k :| 0 <= k < |messages| && messages[k] == m;
      assert k < |init| && init[k] == m;
      assert m.creationTime < last.creationTime;
      assert MessagesUpTo(messages, m.chatId, m.creationTime) == MessagesUpTo(init, m.chatId, m.creationTime);
      MessagesOrderedInit(messages, bound);
      SharedMessagesEndAtShared(init, m, bound);
    }
  }

  /**
   * Sharing a chat, then opening the share link as someone other than the owner, shows every
   * message the chat had when it was shared. The share id must be one no other chat carries.
   */
  lemma ShareThenView(chats: seq<ChatDoc>, messages: seq<MessageDoc>, bound: nat, chat: ChatDoc,
                      shareId: string, viewer: Option<UserId>)
    requires ChatsOrdered(chats, bound) && MessagesOrdered(messages, bound)
    requires chat in chats && |MessagesOfChat(messages, chat.docId)| > 0
    requires forall c :: c in chats ==> c.shareId != Some(shareId)
    requires viewer != Some(chat.userId)
    ensures
      var latest := Last(MessagesOfChat(messages, chat.docId));
      var shared := chat.(lastSharedMessageId := Some(latest.docId), shareId := Some(shareId));
      GetSharedChatWithMessages(PatchChat(chats, chat.docId, shared), messages, viewer, shareId)
        == Ok(Success(SharedView(shared, MessagesOfChat(messages, chat.docId), false), Some("Shared chat retrieved")))
  {
    var ofChat := MessagesOfChat(messages, chat.docId);
    var latest := Last(ofChat);
    var shared := chat.(lastSharedMessageId := Some(latest.docId), shareId := Some(shareId));
    var patched := PatchChat(chats, chat.docId, shared);
    var k :| 0 <= k < |chats| && chats[k] == chat;
    PatchedShareIdUnique(chats, bound, k, shared, shareId);
    ShareIdFoundAt(patched, shareId, k);
    assert latest in ofChat;
    var i :| 0 <= i < |messages| && messages[i] == latest;
    MessageFoundById(messages, bound, i);
    LatestIsNewest(messages, chat.docId, bound);
    UpToLatestIsAll(messages, chat.docId, latest.creationTime, bound);
  }

  /** Patching chat `k` with a share id no chat carries makes it the only chat with that share id. */
  lemma PatchedShareIdUnique(chats: seq<ChatDoc>, bound: nat, k: nat, shared: ChatDoc, shareId: string)
    requires ChatsOrdered(chats, bound) && k < |chats| && shared.shareId == Some(shareId)
    requires forall c :: c in chats ==> c.shareId != Some(shareId)
    ensures var patched := PatchChat(chats, chats[k].docId, shared);
      && patched[k] == shared
      && forall i :: 0 <= i < |patched| && i != k ==> patched[i].shareId != Some(shareId)
  {
    var patched := PatchChat(chats, chats[k].docId, shared);
    forall i | 0 <= i < |patched| && i != k ensures patched[i].shareId != Some(shareId) {
      assert chats[i] in chats;
      if i < k {
        assert chats[i].creationTime < chats[k].creationTime;
      } else {
        assert chats[k].creationTime < chats[i].creationTime;
      }
    }
  }

  /** The last message of a chat's listing is the chat's newest message. */
  lemma {:induction false} LatestIsNewest(messages: seq<MessageDoc>, chatId: ChatId, bound: nat)
    requires MessagesOrdered(messages, bound) && |MessagesOfChat(messages, chatId)| > 0
    ensures forall i :: 0 <= i < |messages| && messages[i].chatId == chatId ==>
      messages[i].creationTime <= Last(MessagesOfChat(messages, chatId)).creationTime
  {
    var init := messages[..|messages| - 1];
    var last := messages[|messages| - 1];
    if last.chatId == chatId {
      assert Last(MessagesOfChat(messages, chatId)) == last;
    } else {
      assert MessagesOfChat(messages, chatId) == MessagesOfChat(init, chatId);
      MessagesOrderedInit(messages, bound);
      LatestIsNewest(init, chatId, bound);
      assert forall i :: 0 <= i < |init| ==> init[i] == messages[i];
    }
  }

  lemma {:induction false} ShareIdFoundAt(chats: seq<ChatDoc>, shareId: string, k: nat)
    requires k < |chats| && chats[k].shareId == Some(shareId)
    requires forall i :: 0 <= i < |chats| && i != k ==> chats[i].shareId != Some(shareId)
    ensures FindByShareId(chats, shareId) == Some(chats[k])
  {
    if k > 0 {
      ShareIdFoundAt(chats[1..], shareId, k - 1);
    }
  }

  lemma {:induction false} MessageFoundById(messages: seq<MessageDoc>, bound: nat, k: nat)
    requires MessagesOrdered(messages, bound) && k < |messages|
    ensures FindMessage(messages, messages[k].docId) == Some(messages[k])
  {
    if k > 0 {
      assert messages[0].docId < messages[k].docId;
      MessageFoundById(messages[1..], bound, k - 1);
    }
  }
}
