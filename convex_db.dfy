/**
 * The database the Convex handlers run against: the chat and message tables in creation order,
 * the registered users, the file storage, and the counter that issues ids and creation times.
 * Its methods are the primitive `ctx.db` and `ctx.storage` operations the handlers use.
 */
module ConvexDb {
  import opened Wrappers
  import opened Schema

  /** Each record's id is its creation time, and creation times strictly increase along the table. */
  ghost predicate ChatsOrdered(chats: seq<ChatDoc>, bound: nat) {
    && (forall i :: 0 <= i < |chats| ==> chats[i].docId == chats[i].creationTime < bound)
    && (forall i, j :: 0 <= i < j < |chats| ==> chats[i].creationTime < chats[j].creationTime)
  }

  ghost predicate MessagesOrdered(messages: seq<MessageDoc>, bound: nat) {
    && (forall i :: 0 <= i < |messages| ==> messages[i].docId == messages[i].creationTime < bound)
    && (forall i, j :: 0 <= i < j < |messages| ==> messages[i].creationTime < messages[j].creationTime)
  }

  function ChatIds(chats: seq<ChatDoc>): set<ChatId> {
    set c | c in chats :: c.docId
  }

  /** Every message belongs to a chat that is still in the chat table. */
  ghost predicate MessagesReferToChats(messages: seq<MessageDoc>, chats: seq<ChatDoc>) {
    forall i :: 0 <= i < |messages| ==> messages[i].chatId in ChatIds(chats)
  }

  /**
   * What `ctx.db.get` throws when handed `null` or `undefined` instead of an id: Convex's own
   * argument error, which no handler catches. Only its being distinct from every handler's
   * message is modelled, not its wording.
   */
  function InvalidIdArgument(): string {
    "Invalid argument `id` for `db.get`"
  }

  /** `ctx.db.get(id)` on the chat table. */
  function FindChat(chats: seq<ChatDoc>, id: ChatId): (r: Option<ChatDoc>)
    ensures r.Some? ==> r.value in chats && r.value.docId == id
    ensures r.None? ==> forall i :: 0 <= i < |chats| ==> chats[i].docId != id
  {
    if |chats| == 0 then None
    else if chats[0].docId == id then Some(chats[0])
    else FindChat(chats[1..], id)
  }

  /** `ctx.db.get(id)` on the message table. */
  function FindMessage(messages: seq<MessageDoc>, id: MessageId): (r: Option<MessageDoc>)
    ensures r.Some? ==> r.value in messages && r.value.docId == id
    ensures r.None? ==> forall i :: 0 <= i < |messages| ==> messages[i].docId != id
  {
    if |messages| == 0 then None
    else if messages[0].docId == id then Some(messages[0])
    else FindMessage(messages[1..], id)
  }

  /** The `by_chatId` index: the messages of one chat, in creation order. */
  function MessagesOfChat(messages: seq<MessageDoc>, chatId: ChatId): (r: seq<MessageDoc>)
    ensures |r| <= |messages|
    ensures forall m :: m in r <==> m in messages && m.chatId == chatId
  {
    if |messages| == 0 then []
    else
      var init := MessagesOfChat(messages[..|messages| - 1], chatId);
      var last := messages[|messages| - 1];
      assert forall m :: m in messages <==> m in messages[..|messages| - 1] || m == last;
      init + (if last.chatId == chatId then [last] else [])
  }

  /** The `userId` index: the chats of one owner, in creation order. */
  function ChatsOfUser(chats: seq<ChatDoc>, userId: UserId): (r: seq<ChatDoc>)
    ensures forall c :: c in r <==> c in chats && c.userId == userId
  {
    if |chats| == 0 then []
    else
      var init := ChatsOfUser(chats[..|chats| - 1], userId);
      var last := chats[|chats| - 1];
      assert forall c :: c in chats <==> c in chats[..|chats| - 1] || c == last;
      init + (if last.userId == userId then [last] else [])
  }

  /** The records left after deleting every record whose id is in `ids`. */
  function WithoutIds(messages: seq<MessageDoc>, ids: set<MessageId>): (r: seq<MessageDoc>)
    ensures forall m :: m in r <==> m in messages && m.docId !in ids
  {
    if |messages| == 0 then []
    else
      var init := WithoutIds(messages[..|messages| - 1], ids);
      var last := messages[|messages| - 1];
      assert forall m :: m in messages <==> m in messages[..|messages| - 1] || m == last;
      init + (if last.docId in ids then [] else [last])
  }

  /** The messages that do not belong to `chatId`, in their order. */
  function MessagesOfOtherChats(messages: seq<MessageDoc>, chatId: ChatId): (r: seq<MessageDoc>)
    ensures forall m :: m in r <==> m in messages && m.chatId != chatId
  {
    if |messages| == 0 then []
    else
      var init := MessagesOfOtherChats(messages[..|messages| - 1], chatId);
      var last := messages[|messages| - 1];
      assert forall m :: m in messages <==> m in messages[..|messages| - 1] || m == last;
      init + (if last.chatId == chatId then [] else [last])
  }

  function ChatsWithoutId(chats: seq<ChatDoc>, id: ChatId): (r: seq<ChatDoc>)
    ensures forall c :: c in r <==> c in chats && c.docId != id
  {
    if |chats| == 0 then []
    else
      var init := ChatsWithoutId(chats[..|chats| - 1], id);
      var last := chats[|chats| - 1];
      assert forall c :: c in chats <==> c in chats[..|chats| - 1] || c == last;
      init + (if last.docId == id then [] else [last])
  }

  /** The chat table with the record `id` replaced by `update`. */
  function PatchChat(chats: seq<ChatDoc>, id: ChatId, update: ChatDoc): (r: seq<ChatDoc>)
    ensures |r| == |chats|
    ensures forall i :: 0 <= i < |chats| ==> r[i] == if chats[i].docId == id then update else chats[i]
  {
    seq(|chats|, i requires 0 <= i < |chats| => if chats[i].docId == id then update else chats[i])
  }

  lemma {:induction false} WithoutNoIds(messages: seq<MessageDoc>)
    ensures WithoutIds(messages, {}) == messages
  {
    if |messages| > 0 {
      var init := messages[..|messages| - 1];
      WithoutNoIds(init);
      WithoutIdsKeeps(messages, {});
      assert messages == init + [messages[|messages| - 1]];
    }
  }

  /** A last record whose id is not deleted stays last. */
  lemma WithoutIdsKeeps(messages: seq<MessageDoc>, ids: set<MessageId>)
    requires |messages| > 0 && messages[|messages| - 1].docId !in ids
    ensures WithoutIds(messages, ids) == WithoutIds(messages[..|messages| - 1], ids) + [messages[|messages| - 1]]
  {
  }

  lemma {:induction false} OfChatEmpty(messages: seq<MessageDoc>, chatId: ChatId)
    requires forall i :: 0 <= i < |messages| ==> messages[i].chatId != chatId
    ensures MessagesOfChat(messages, chatId) == []
  {
    if |messages| > 0 {
      OfChatEmpty(messages[..|messages| - 1], chatId);
    }
  }

  lemma {:induction false} WithoutIdsSnoc(messages: seq<MessageDoc>, ids: set<MessageId>, id: MessageId)
    ensures WithoutIds(WithoutIds(messages, ids), {id}) == WithoutIds(messages, ids + {id})
  {
    if |messages| > 0 {
      var init := messages[..|messages| - 1];
      WithoutIdsSnoc(init, ids, id);
      var w := WithoutIds(messages, ids);
      var last := messages[|messages| - 1];
      if last.docId in ids {
        assert w == WithoutIds(init, ids);
      } else {
        assert w[..|w| - 1] == WithoutIds(init, ids);
      }
    }
  }

  /**
   * Deleting, one by one, the ids of a chat's messages leaves exactly the messages of the other
   * chats: ids are unique, so no other record carries one of those ids.
   */
  lemma {:induction false} DeletingChatIdsKeepsOthers(messages: seq<MessageDoc>, chatId: ChatId, bound: nat)
    requires MessagesOrdered(messages, bound)
    ensures WithoutIds(messages, IdsOf(MessagesOfChat(messages, chatId))) == MessagesOfOtherChats(messages, chatId)
  {
    if |messages| > 0 {
      var init := messages[..|messages| - 1];
      var last := messages[|messages| - 1];
      DeletingChatIdsKeepsOthers(init, chatId, bound);
      var initIds := IdsOf(MessagesOfChat(init, chatId));
      assert last.docId !in IdsOf(init);
      IdsOfSubset(MessagesOfChat(init, chatId), init);
      if last.chatId == chatId {
        assert IdsOf(MessagesOfChat(messages, chatId)) == initIds + {last.docId};
        WithoutIrrelevantId(init, initIds, last.docId);
      } else {
        assert MessagesOfChat(messages, chatId) == MessagesOfChat(init, chatId);
      }
    }
  }

  function IdsOf(messages: seq<MessageDoc>): set<MessageId> {
    set m | m in messages :: m.docId
  }

  lemma IdsOfSnoc(messages: seq<MessageDoc>, m: MessageDoc)
    ensures IdsOf(messages + [m]) == IdsOf(messages) + {m.docId}
  {
    assert forall x :: x in messages + [m] <==> x in messages || x == m;
  }

  lemma IdsOfSubset(a: seq<MessageDoc>, b: seq<MessageDoc>)
    requires forall m :: m in a ==> m in b
    ensures IdsOf(a) <= IdsOf(b)
  {
  }

  lemma {:induction false} WithoutIrrelevantId(messages: seq<MessageDoc>, ids: set<MessageId>, id: MessageId)
    requires id !in IdsOf(messages)
    ensures WithoutIds(messages, ids + {id}) == WithoutIds(messages, ids)
  {
    if |messages| > 0 {
      var init := messages[..|messages| - 1];
      assert IdsOf(init) <= IdsOf(messages);
      WithoutIrrelevantId(init, ids, id);
    }
  }

  function Elements(s: seq<StorageId>): set<StorageId> {
    set x | x in s
  }

  /** The stored objects one message references. */
  function StorageOfMessage(m: MessageDoc): set<StorageId> {
    if m.storageIds.Some? then Elements(m.storageIds.value) else {}
  }

  /** The stored objects referenced by a list of messages. */
  function StorageOf(messages: seq<MessageDoc>): set<StorageId> {
    if |messages| == 0 then {}
    else StorageOf(messages[..|messages| - 1]) + StorageOfMessage(messages[|messages| - 1])
  }

  class Database {
    var users: set<UserId>
    var chats: seq<ChatDoc>
    var messages: seq<MessageDoc>
    var storage: set<StorageId>
    var nextId: nat

    ghost predicate Valid()
      reads this
    {
      ChatsOrdered(chats, nextId) && MessagesOrdered(messages, nextId) && MessagesReferToChats(messages, chats)
    }

    constructor (users: set<UserId>)
      ensures Valid()
      ensures this.users == users && chats == [] && messages == [] && storage == {}
    {
      this.users := users;
      chats, messages, storage, nextId := [], [], {}, 0;
    }

    /** `ctx.db.insert("chat", ...)`: a new chat at the end of the table, with a fresh id. */
    method InsertChat(title: string, userId: UserId) returns (id: ChatId)
      requires Valid()
      modifies this
      ensures Valid()
      ensures id == old(nextId) && nextId == old(nextId) + 1
      ensures chats == old(chats) + [ChatDoc(id, id, title, userId, None, None, None)]
      ensures messages == old(messages) && users == old(users) && storage == old(storage)
    {
      id := nextId;
      chats := chats + [ChatDoc(id, id, title, userId, None, None, None)];
      nextId := nextId + 1;
    }

    /** `ctx.db.insert("message", ...)`: a new message at the end of the table, with a fresh id. */
    method InsertMessage(content: string, role: Role, chatId: ChatId, parts: string, userId: UserId)
      returns (id: MessageId)
      requires Valid()
      requires chatId in ChatIds(chats)
      modifies this
      ensures Valid()
      ensures id == old(nextId) && nextId == old(nextId) + 1
      ensures messages == old(messages) + [MessageDoc(id, id, content, role, chatId, parts, userId, None, None)]
      ensures chats == old(chats) && users == old(users) && storage == old(storage)
    {
      id := nextId;
      messages := messages + [MessageDoc(id, id, content, role, chatId, parts, userId, None, None)];
      nextId := nextId + 1;
    }

    /** `ctx.db.patch(id, ...)` on a chat. */
    method Patch(id: ChatId, update: ChatDoc)
      requires Valid()
      requires update.docId == id && FindChat(chats, id).Some? && update.creationTime == FindChat(chats, id).value.creationTime
      modifies this
      ensures Valid()
      ensures chats == PatchChat(old(chats), id, update)
      ensures messages == old(messages) && users == old(users) && storage == old(storage) && nextId == old(nextId)
    {
      PatchChatKeepsTable(chats, messages, nextId, id, update);
      chats := PatchChat(chats, id, update);
    }

    /** `ctx.db.delete(id)` on a message. */
    method DeleteMessage(id: MessageId)
      requires Valid()
      modifies this
      ensures Valid()
      ensures messages == WithoutIds(old(messages), {id})
      ensures chats == old(chats) && users == old(users) && storage == old(storage) && nextId == old(nextId)
    {
      WithoutIdsOrdered(messages, {id}, nextId);
      messages := WithoutIds(messages, {id});
    }

    /** `ctx.db.delete(id)` on a chat. */
    method DeleteChat(id: ChatId)
      requires Valid()
      requires forall i :: 0 <= i < |messages| ==> messages[i].chatId != id
      modifies this
      ensures Valid()
      ensures chats == ChatsWithoutId(old(chats), id)
      ensures messages == old(messages) && users == old(users) && storage == old(storage) && nextId == old(nextId)
    {
      ChatsWithoutIdOrdered(chats, id, nextId);
      chats := ChatsWithoutId(chats, id);
    }

    /**
     * `ctx.storage.delete(id)`: removes the object, or fails (for the ids in `failing`) and then
     * removes nothing.
     */
    method DeleteStorage(id: StorageId, failing: set<StorageId>) returns (failed: bool)
      requires Valid()
      modifies this
      ensures Valid()
      ensures failed <==> id in failing
      ensures storage == if failed then old(storage) else old(storage) - {id}
      ensures chats == old(chats) && messages == old(messages) && users == old(users) && nextId == old(nextId)
    {
      failed := id in failing;
      if !failed {
        storage := storage - {id};
      }
    }
  }

  /** Replacing a chat by a record with the same id and creation time keeps the tables consistent. */
  lemma PatchChatKeepsTable(chats: seq<ChatDoc>, messages: seq<MessageDoc>, bound: nat, id: ChatId, update: ChatDoc)
    requires ChatsOrdered(chats, bound) && MessagesReferToChats(messages, chats)
    requires update.docId == id && FindChat(chats, id).Some? && update.creationTime == FindChat(chats, id).value.creationTime
    ensures ChatsOrdered(PatchChat(chats, id, update), bound)
    ensures MessagesReferToChats(messages, PatchChat(chats, id, update))
  {
    var p := PatchChat(chats, id, update);
    forall i | 0 <= i < |chats| ensures p[i].docId == chats[i].docId && p[i].creationTime == chats[i].creationTime {
      if chats[i].docId == id {
        var c := FindChat(chats, id).value;
        var k :| 0 <= k < |chats| && chats[k] == c;
        assert chats[k].creationTime == chats[k].docId == chats[i].docId == chats[i].creationTime;
        assert k == i;
      }
    }
    assert ChatIds(p) == ChatIds(chats) by {
      forall c | c in chats ensures c.docId in ChatIds(p) {
        var i :| 0 <= i < |chats| && chats[i] == c;
        assert p[i].docId == c.docId;
      }
      forall c | c in p ensures c.docId in ChatIds(chats) {
        var i :| 0 <= i < |p| && p[i] == c;
        assert chats[i].docId == c.docId;
      }
    }
  }

  lemma {:induction false} WithoutIdsOrdered(messages: seq<MessageDoc>, ids: set<MessageId>, bound: nat)
    requires MessagesOrdered(messages, bound)
    ensures MessagesOrdered(WithoutIds(messages, ids), bound)
  {
    if |messages| > 0 {
      var init := messages[..|messages| - 1];
      var last := messages[|messages| - 1];
      MessagesOrderedInit(messages, bound);
      WithoutIdsOrdered(init, ids, bound);
      assert messages == init + [last];
      if last.docId !in ids {
        assert WithoutIds(messages, ids) == WithoutIds(init, ids) + [last];
        MessagesSelectionSnoc(WithoutIds(init, ids), init, last, bound);
      } else {
        assert WithoutIds(messages, ids) == WithoutIds(init, ids);
      }
    }
  }

  lemma {:induction false} ChatsWithoutIdOrdered(chats: seq<ChatDoc>, id: ChatId, bound: nat)
    requires ChatsOrdered(chats, bound)
    ensures ChatsOrdered(ChatsWithoutId(chats, id), bound)
  {
    if |chats| > 0 {
      var init := chats[..|chats| - 1];
      var last := chats[|chats| - 1];
      ChatsOrderedInit(chats, bound);
      ChatsWithoutIdOrdered(init, id, bound);
      assert chats == init + [last];
      if last.docId != id {
        assert ChatsWithoutId(chats, id) == ChatsWithoutId(init, id) + [last];
        ChatsSelectionSnoc(ChatsWithoutId(init, id), init, last, bound);
      } else {
        assert ChatsWithoutId(chats, id) == ChatsWithoutId(init, id);
      }
    }
  }

  /** Selecting one chat's messages keeps creation order. */
  lemma {:induction false} MessagesOfChatOrdered(messages: seq<MessageDoc>, chatId: ChatId, bound: nat)
    requires MessagesOrdered(messages, bound)
    ensures MessagesOrdered(MessagesOfChat(messages, chatId), bound)
  {
    if |messages| > 0 {
      var init := messages[..|messages| - 1];
      var last := messages[|messages| - 1];
      MessagesOrderedInit(messages, bound);
      MessagesOfChatOrdered(init, chatId, bound);
      assert messages == init + [last];
      if last.chatId == chatId {
        assert MessagesOfChat(messages, chatId) == MessagesOfChat(init, chatId) + [last];
        MessagesSelectionSnoc(MessagesOfChat(init, chatId), init, last, bound);
      } else {
        assert MessagesOfChat(messages, chatId) == MessagesOfChat(init, chatId);
      }
    }
  }

  /** Dropping the newest record keeps the table ordered. */
  lemma MessagesOrderedInit(messages: seq<MessageDoc>, bound: nat)
    requires |messages| > 0 && MessagesOrdered(messages, bound)
    ensures MessagesOrdered(messages[..|messages| - 1], bound)
  {
  }

  lemma ChatsOrderedInit(chats: seq<ChatDoc>, bound: nat)
    requires |chats| > 0 && ChatsOrdered(chats, bound)
    ensures ChatsOrdered(chats[..|chats| - 1], bound)
  {
  }

  /**
   * A selection `r` of the older records stays ordered when the newest record is appended to it:
   * the step shared by every filter of the message table.
   */
  lemma MessagesSelectionSnoc(r: seq<MessageDoc>, init: seq<MessageDoc>, last: MessageDoc, bound: nat)
    requires MessagesOrdered(r, bound) && MessagesOrdered(init + [last], bound)
    requires forall m :: m in r ==> m in init
    ensures MessagesOrdered(r + [last], bound)
  {
    var all := init + [last];
    assert all[|init|] == last;
    forall i | 0 <= i < |r| ensures r[i].creationTime < last.creationTime {
      assert r[i] in r;
      var k :| 0 <= k < |init| && init[k] == r[i];
      assert all[k] == r[i];
    }
  }

  /** The same step for the chat table. */
  lemma ChatsSelectionSnoc(r: seq<ChatDoc>, init: seq<ChatDoc>, last: ChatDoc, bound: nat)
    requires ChatsOrdered(r, bound) && ChatsOrdered(init + [last], bound)
    requires forall c :: c in r ==> c in init
    ensures ChatsOrdered(r + [last], bound)
  {
    var all := init + [last];
    assert all[|init|] == last;
    forall i | 0 <= i < |r| ensures r[i].creationTime < last.creationTime {
      assert r[i] in r;
      var k :| 0 <= k < |init| && init[k] == r[i];
      assert all[k] == r[i];
    }
  }

  /** A message appended to a chat becomes the last entry of that chat's listing; other chats' listings are unaffected. */
  lemma MessagesOfChatSnoc(messages: seq<MessageDoc>, m: MessageDoc, chatId: ChatId)
    ensures MessagesOfChat(messages + [m], chatId)
         == MessagesOfChat(messages, chatId) + (if m.chatId == chatId then [m] else [])
  {
    assert (messages + [m])[..|messages + [m]| - 1] == messages;
  }
}
