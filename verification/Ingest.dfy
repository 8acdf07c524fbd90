/** Specification of lib/services/ingest.ts: how one message, edit or delete changes the tables. */
module Ingest {
  import opened Prelude
  import opened ArchiveTypes

  function PlaceOf(src: SourceId, m: Incoming): Place {
    Place(src, m.chat, m.ext)
  }

  function ChatAfter(was: Option<Chat>, channel: string, m: Incoming): Chat {
    match was
    case None => Chat(channel, m.chatKind, m.chatTitle, m.sentAt, None, None)
    case Some(c) =>
      c.(title := if m.chatTitle.Some? then m.chatTitle else c.title,
         lastMessageAt := Max(c.lastMessageAt, m.sentAt))
  }

  function UpsertChat(st: State, src: SourceId, channel: string, m: Incoming): State {
    var room := ChatKey(src, m.chat);
    st.(chats := st.chats[room := ChatAfter(Get(st.chats, room), channel, m)])
  }

  function BodyOf(m: Incoming): Body {
    Body(m.sender, m.senderName, m.fromOwner, m.sentAt, m.kind, m.hasMedia, m.replyTo, m.raw)
  }

  function NewSlot(m: Incoming, pushKey: Option<KeyId>, editedAt: Option<Time>, serial: nat): Slot {
    Slot(Row(serial, BodyOf(m), m.text, editedAt, None, None, 0, pushKey, pushKey,
             Some(if pushKey.Some? then ByKey else ByChannel)), map[])
  }

  datatype Recorded = Recorded(inserted: bool, existingText: Option<string>, existingDeleted: bool)

  function Record(st: State, src: SourceId, channel: string, m: Incoming,
                  pushKey: Option<KeyId>, editedAt: Option<Time>): (State, Recorded)
  {
    var st1 := UpsertChat(st, src, channel, m);
    var p := PlaceOf(src, m);
    if p in st1.messages then
      (st1, Recorded(false, st1.messages[p].row.text, st1.messages[p].row.deletedAt.Some?))
    else
      (st1.(messages := st1.messages[p := NewSlot(m, pushKey, editedAt, st1.serial)], serial := st1.serial + 1),
       Recorded(true, None, false))
  }

  /** The WHERE clause of a pushed edit: not a tombstone, and strictly newer than the last edit. */
  predicate PushedEditApplies(s: Slot, at: Time) {
    s.row.deletedAt.None? && (s.row.editedAt.None? || s.row.editedAt.value < at)
  }

  function Edited(s: Slot, text: Option<string>, at: Time, key: Option<KeyId>, actor: Option<ContentActor>): Slot {
    Slot(s.row.(text := text, editedAt := Some(at), conflictedAt := None, revision := s.row.revision + 1,
                contentKey := key, contentActor := actor), map[])
  }

  function PushedEdit(st: State, p: Place, text: Option<string>, at: Time, key: Option<KeyId>): (State, bool) {
    if p in st.messages && PushedEditApplies(st.messages[p], at) then
      (st.(messages := st.messages[p := Edited(st.messages[p], text, at, key, if key.Some? then Some(ByKey) else None)]), true)
    else
      (st, false)
  }

  predicate AuthoredBy(actor: Option<Actor>, body: Body) {
    match actor
    case None => true
    case Some(Actor(true, _)) => body.fromOwner
    case Some(Actor(false, sender)) => sender.Some? && sender.value != "" && !body.fromOwner && body.sender == sender
  }

  function LiveEdit(st: State, src: SourceId, channel: string, m: Incoming, now: Time): State {
    var st1 := UpsertChat(st, src, channel, m);
    var p := PlaceOf(src, m);
    if p in st1.messages && st1.messages[p].row.deletedAt.None? && AuthoredBy(m.actor, st1.messages[p].row.body) then
      st1.(messages := st1.messages[p := Edited(st1.messages[p], m.text, now, None, Some(ByChannel))])
    else if m.actor.Some? || channel == "whatsapp" then st1
    else Record(st1, src, channel, m, None, None).0
  }

  // A delete that names no chat searches the common id space only.
  const MIN_COMMON_CHAT_ID := -999999999999

  predicate IsDigit(c: char) { '0' <= c <= '9' }

  function DigitsValue(s: string): nat
    requires forall c :: c in s ==> IsDigit(c)
  {
    if s == "" then 0
    else
      assert IsDigit(s[|s| - 1]);
      10 * DigitsValue(s[..|s| - 1]) + (s[|s| - 1] as int - '0' as int)
  }

  predicate IsCommonChat(chat: string) {
    var negative := chat != "" && chat[0] == '-';
    var digits := if negative then chat[1..] else chat;
    digits != "" && (forall c :: c in digits ==> IsDigit(c)) &&
    (if negative then -1 else 1) * DigitsValue(digits) >= MIN_COMMON_CHAT_ID
  }

  predicate DeleteTargets(ref: DeleteRef, chat: string) {
    if ref.chat.Some? && ref.chat.value != "" then chat == ref.chat.value else IsCommonChat(chat)
  }

  predicate DeleteHits(st: State, src: SourceId, ref: DeleteRef, p: Place) {
    p in st.messages && p.source == src && p.Room() in st.chats && DeleteTargets(ref, p.chat) && p.ext == ref.ext &&
    st.messages[p].row.deletedAt.None? && AuthoredBy(ref.actor, st.messages[p].row.body)
  }

  function Tombstone(s: Slot, now: Time): Slot {
    Slot(s.row.(deletedAt := Some(now), conflictedAt := None, revision := s.row.revision + 1), map[])
  }

  function Delete(st: State, src: SourceId, ref: DeleteRef, now: Time): (State, nat) {
    (st.(messages := map p | p in st.messages ::
           if DeleteHits(st, src, ref, p) then Tombstone(st.messages[p], now) else st.messages[p]),
     |set p | p in st.messages && DeleteHits(st, src, ref, p)|)
  }

  function MarkPushes(st: State, src: SourceId, key: KeyId, touched: set<ChatKey>, deletes: seq<Deletion>, now: Time): State
  {
    var all := touched + (set d | d in deletes && ChatKey(src, d.chat) in st.chats :: ChatKey(src, d.chat));
    st.(chats := map room | room in st.chats ::
          if room in all then st.chats[room].(lastPushAt := Some(now), lastPushKey := Some(key)) else st.chats[room])
  }
}
