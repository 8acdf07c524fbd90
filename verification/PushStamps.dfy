/** Which chats a batch stamps with its instant and its key: those it names, by an entry or by a delete. */
module PushStamps {
  import opened Prelude
  import opened ArchiveTypes
  import opened Disputes
  import opened Import
  import opened PushFold

  /** Named by an entry, or by a delete. */
  predicate Addressed(b: Batch, src: SourceId, room: ChatKey) {
    NamesRoom(b.messages, src, room) || (room.source == src && exists d :: d in b.deletes && d.chat == room.chat)
  }

  lemma {:induction false} DeletesKeepRooms(st: State, src: SourceId, ds: seq<Deletion>, now: Time)
    ensures Deletes(st, src, ds, now).0.chats == st.chats
  {
    if ds != [] {
      DeletesKeepRooms(st, src, ds[..|ds| - 1], now);
    }
  }

  lemma UpsertKeepsRooms(st: State, key: KeyId, ref: SourceRef)
    ensures UpsertSource(st, key, ref).0.chats == st.chats
  {
  }

  /**
    * An accepted batch: a chat exists afterwards if it did before or an entry names it; a chat the batch addresses
    * carries the batch's instant and key, and every other chat is as it was.
    */
  lemma BatchStamps(st: State, key: KeyId, b: Batch, now: Time, room: ChatKey)
    requires ImportBatch(st, key, b, now).1.Ok?
    ensures var (end, out) := ImportBatch(st, key, b, now); var src := out.value.source;
      && (room in end.chats <==> room in st.chats || NamesRoom(b.messages, src, room))
      && (room in end.chats ==>
            if Addressed(b, src, room) then end.chats[room].lastPushAt == Some(now) && end.chats[room].lastPushKey == Some(key)
            else room in st.chats && end.chats[room] == st.chats[room])
  {
    hide Entries, Deletes, Pending, NamesRoom, UpsertSource;
    var (st1, src) := UpsertSource(st, key, b.source);
    UpsertKeepsRooms(st, key, b.source);
    var ctx := Ctx(src, b.source.channel, key, now);
    var a := Start(st1, Some(Pending(st1.messages)));
    EntriesRooms(a, ctx, b.messages, room);
    DeletesKeepRooms(Entries(a, ctx, b.messages).acc.st, src, b.deletes, now);
  }
}
