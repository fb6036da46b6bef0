/**
 * Record shapes of the chat, message and stream-id tables. Document ids and creation times are
 * system fields; both are modelled by one increasing counter of the database.
 */
module Schema {
  import opened Wrappers

  type Id = nat
  type UserId = Id
  type ChatId = Id
  type MessageId = Id
  type StorageId = Id

  /** A message role is only "user" or "assistant". */
  datatype Role = User | Assistant

  /** An attachment always carries its content type, url and name. */
  datatype Attachment = Attachment(contentType: string, url: string, name: string)

  /** A chat: title and owner, optional share id, last shared message and branch flag. */
  datatype ChatDoc = ChatDoc(
    docId: ChatId,
    creationTime: nat,
    title: string,
    userId: UserId,
    shareId: Option<string>,
    lastSharedMessageId: Option<MessageId>,
    branched: Option<bool>)

  /** A message: content, role, chat, JSON-encoded parts and owner; optional attachments and stored objects. */
  datatype MessageDoc = MessageDoc(
    docId: MessageId,
    creationTime: nat,
    content: string,
    role: Role,
    chatId: ChatId,
    parts: string,
    userId: UserId,
    attachments: Option<seq<Attachment>>,
    storageIds: Option<seq<StorageId>>)

  /** A stream record pairs a chat with one of its stream ids. */
  datatype StreamRecord = StreamRecord(chatId: ChatId, streamId: string)
}
