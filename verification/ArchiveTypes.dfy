/** The rows of the archive (lib/db/schema.ts) and the messages that enter it. */
module ArchiveTypes {
  import opened Prelude

  // Ids are fresh serial numbers: nothing in the archive ever compares two of
  // them for order, so any injective naming would do.
  type KeyId = nat
  type SourceId = nat

  datatype Mode = Live | Push
  datatype ChatKind = Dm | Group | Broadcast
  datatype MessageType =
    | Text | Image | Video | Audio | Document | Sticker | Reaction | Poll | Location | Contact | System | Unknown

  /** A JSON payload: what the pusher sent, or the two-field stand-in of toIncoming. */
  datatype Raw = Sent(json: string) | StandIn(ext: string, sentAt: Time)

  datatype Key = Key(canPush: bool, revoked: bool)

  datatype Source = Source(
    mode: Mode, channel: string, account: Option<string>, name: Option<string>, creator: Option<KeyId>,
    revoked: bool, lastSyncAt: Option<Time>, lastImportConflicts: nat, lastPushKey: Option<KeyId>)

  datatype ChatKey = ChatKey(source: SourceId, chat: string)

  datatype Chat = Chat(
    channel: string, kind: ChatKind, title: Option<string>, lastMessageAt: Time,
    lastPushAt: Option<Time>, lastPushKey: Option<KeyId>)

  /** Where a message lives: the unique index on (chat_id, external_message_id). */
  datatype Place = Place(source: SourceId, chat: string, ext: string) {
    function Room(): ChatKey { ChatKey(source, chat) }
  }

  /** The columns no update ever touches. */
  datatype Body = Body(
    sender: Option<string>, senderName: Option<string>, fromOwner: bool, sentAt: Time, kind: MessageType,
    hasMedia: bool, replyTo: Option<string>, raw: Raw)

  datatype ContentActor = ByKey | ByOwner | ByChannel

  datatype Row = Row(
    serial: nat, body: Body, text: Option<string>, editedAt: Option<Time>, deletedAt: Option<Time>,
    conflictedAt: Option<Time>, revision: nat, pushKey: Option<KeyId>, contentKey: Option<KeyId>,
    contentActor: Option<ContentActor>)

  /** A dispute's identity within its message: the SHA-256 fingerprint is injective, so the text stands for it. */
  datatype CandKey = CandKey(revision: nat, key: KeyId, text: Option<string>)

  datatype Cand = Cand(serial: nat, firstSeen: Time, lastSeen: Time, occurrences: nat)

  /** A message row together with the message_disputes rows that reference it (they cascade with it). */
  datatype Slot = Slot(row: Row, cands: map<CandKey, Cand>)

  datatype State = State(
    keys: map<KeyId, Key>, sources: map<SourceId, Source>, chats: map<ChatKey, Chat>,
    messages: map<Place, Slot>, serial: nat)

  const EMPTY := State(map[], map[], map[], map[], 0)

  /** A message id: fresh at insertion, never reused, and bound to one place for ever. */
  datatype MessageId = MessageId(at: Place, serial: nat)

  datatype Actor = Actor(fromOwner: bool, sender: Option<string>)

  datatype Incoming = Incoming(
    chat: string, chatKind: ChatKind, chatTitle: Option<string>, ext: string, sender: Option<string>,
    senderName: Option<string>, fromOwner: bool, sentAt: Time, kind: MessageType, text: Option<string>,
    hasMedia: bool, replyTo: Option<string>, raw: Raw, actor: Option<Actor>)

  datatype DeleteRef = DeleteRef(chat: Option<string>, ext: string, actor: Option<Actor>)

  /** One validated entry of a push batch. */
  datatype Entry = Entry(
    chat: string, chatKind: ChatKind, chatTitle: Option<string>, ext: string, sender: Option<string>,
    senderName: Option<string>, fromOwner: bool, sentAt: Time, kind: MessageType, text: Option<string>,
    replyTo: Option<string>, editedAt: Option<Time>, raw: Option<Raw>)

  datatype Deletion = Deletion(chat: string, ext: string)

  datatype SourceRef = SourceRef(channel: string, account: string, name: string)

  datatype Batch = Batch(source: SourceRef, messages: seq<Entry>, deletes: seq<Deletion>)
}
