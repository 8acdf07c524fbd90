/** What an export holds, column by column, and what never leaves with it. */
module ExportLaws {
  import opened Prelude
  import opened ArchiveTypes
  import opened RoundTrip

  /** The entry carries the row's own columns; raw goes with it exactly if a known key delivered the row. */
  predicate Mirrors(st: State, chat: Chat, p: Place, row: Row, e: Entry) {
    && e.chat == p.chat && e.ext == p.ext && e.chatKind == chat.kind && e.chatTitle == chat.title
    && e.sender == row.body.sender && e.senderName == row.body.senderName && e.fromOwner == row.body.fromOwner
    && e.sentAt == row.body.sentAt && e.kind == row.body.kind && e.replyTo == row.body.replyTo
    && e.text == row.text && e.editedAt == row.editedAt
    && (e.raw == if row.pushKey != None && row.pushKey.value in st.keys then Some(row.body.raw) else None)
  }

  lemma ExportedMirrors(st: State, chat: Chat, p: Place)
    requires p in st.messages
    ensures Mirrors(st, chat, p, st.messages[p].row, Exported(st, chat, p))
  {
  }

  /** A live row of the chat. */
  predicate Stands(st: State, room: ChatKey, p: Place) {
    p in st.messages && p.source == room.source && p.chat == room.chat && st.messages[p].row.deletedAt == None
  }

  lemma {:induction false} AsMany(st: State, room: ChatKey, chat: Chat, some: set<Place>)
    requires forall p :: p in some ==> p in st.messages && p.source == room.source && p.chat == room.chat
    ensures |set p | p in some && p in st.messages :: Exported(st, chat, p)| == |some|
    decreases |some|
  {
    var entries := set p | p in some && p in st.messages :: Exported(st, chat, p);
    if some != {} {
      var q :| q in some;
      var rest := some - {q};
      AsMany(st, room, chat, rest);
      var others := set p | p in rest && p in st.messages :: Exported(st, chat, p);
      forall p | p in rest ensures Exported(st, chat, p) != Exported(st, chat, q) {
        assert p.ext != q.ext;
      }
      hide Exported;
      assert entries == others + {Exported(st, chat, q)};
    }
  }

  /**
    * The export of a chat: one entry per live row and nothing else, each with the row's columns; the count is the number
    * of entries; the deletes are exactly the tombstones; the account leaves only with a push source.
    */
  lemma ExportIsExact(st: State, room: ChatKey)
    requires room in st.chats
    ensures var x := ExportOf(st, room); var chat := st.chats[room];
      && (forall p :: Stands(st, room, p) ==> exists e :: e in x.messages && Mirrors(st, chat, p, st.messages[p].row, e))
      && (forall e :: e in x.messages ==>
            Stands(st, room, Place(room.source, room.chat, e.ext)) && e.chat == room.chat &&
            Mirrors(st, chat, Place(room.source, room.chat, e.ext), st.messages[Place(room.source, room.chat, e.ext)].row, e))
      && x.messageCount == |x.messages|
      && (forall d :: d in x.deletes <==>
            var p := Place(room.source, room.chat, d.ext);
            d.chat == room.chat && p in st.messages && st.messages[p].row.deletedAt != None)
      && x.channel == chat.channel && x.title == chat.title && x.kind == chat.kind
  {
    var x, chat := ExportOf(st, room), st.chats[room];
    forall p | Stands(st, room, p) ensures exists e :: e in x.messages && Mirrors(st, chat, p, st.messages[p].row, e) {
      ExportedMirrors(st, chat, p);
      assert p in LiveRows(st, room);
      assert Exported(st, chat, p) in x.messages;
    }
    forall e | e in x.messages
      ensures Stands(st, room, Place(room.source, room.chat, e.ext)) && e.chat == room.chat
      ensures Mirrors(st, chat, Place(room.source, room.chat, e.ext), st.messages[Place(room.source, room.chat, e.ext)].row, e)
    {
      var p :| p in st.messages && p in LiveRows(st, room) && e == Exported(st, chat, p);
      ExportedMirrors(st, chat, p);
      assert p == Place(room.source, room.chat, e.ext);
    }
    AsMany(st, room, chat, LiveRows(st, room));
    assert x.messages == set p | p in LiveRows(st, room) && p in st.messages :: Exported(st, chat, p);
    forall d ensures d in x.deletes <==>
        (var p := Place(room.source, room.chat, d.ext);
         d.chat == room.chat && p in st.messages && st.messages[p].row.deletedAt != None)
    {
      DeletesAre(st, room, d);
    }
  }

  lemma DeletesAre(st: State, room: ChatKey, d: Deletion)
    requires room in st.chats
    ensures d in ExportOf(st, room).deletes <==>
      (var p := Place(room.source, room.chat, d.ext);
       d.chat == room.chat && p in st.messages && st.messages[p].row.deletedAt != None)
  {
    var p := Place(room.source, room.chat, d.ext);
    if d.chat == room.chat && p in st.messages && st.messages[p].row.deletedAt != None {
      assert p.Room() == room && Deletion(p.chat, p.ext) == d;
    }
    if d in ExportOf(st, room).deletes {
      var q :| q in st.messages && q.Room() == room && st.messages[q].row.deletedAt.Some? && d == Deletion(q.chat, q.ext);
      assert q == p;
    }
  }

  /** The source the export names, and its account only where the pusher chose it. */
  lemma ExportNamesSource(st: State, room: ChatKey)
    requires room in st.chats
    ensures var x := ExportOf(st, room); var src := room.source;
      && x.account == (if src in st.sources && st.sources[src].mode == Push then st.sources[src].account else None)
      && x.name == (if src in st.sources then st.sources[src].name else None)
      && x.mode == (if src in st.sources then st.sources[src].mode else Live)
  {
  }

  // ---- noninterference ----

  /** The same row but for what is withheld: the raw payload of a row no known key delivered. */
  predicate SameButRaw(keys: set<KeyId>, r: Row, t: Row) {
    t == r.(body := r.body.(raw := t.body.raw)) && (r.pushKey != None && r.pushKey.value in keys ==> t == r)
  }

  /** The same source but for what is withheld: the account of one that is not pushed. */
  predicate SameButAccount(s: Source, t: Source) {
    t == s.(account := t.account) && (s.mode == Push ==> t == s)
  }

  ghost predicate Indistinct(st: State, other: State) {
    && other.keys == st.keys && other.chats == st.chats && other.messages.Keys == st.messages.Keys
    && other.sources.Keys == st.sources.Keys
    && (forall p :: p in st.messages ==> SameButRaw(st.keys.Keys, st.messages[p].row, other.messages[p].row))
    && (forall s :: s in st.sources ==> SameButAccount(st.sources[s], other.sources[s]))
  }

  /** Two archives that differ only in what is withheld, and in disputes, export the same. */
  lemma NothingLeaks(st: State, other: State, room: ChatKey)
    requires room in st.chats && Indistinct(st, other)
    ensures room in other.chats && ExportOf(other, room) == ExportOf(st, room)
  {
    assert LiveRows(other, room) == LiveRows(st, room);
    forall p | p in st.messages ensures Exported(other, st.chats[room], p) == Exported(st, st.chats[room], p) {
    }
    hide Exported, LiveRows, SameButAccount;
    assert ExportedMessages(other, room) == ExportedMessages(st, room);
    assert ExportOf(other, room).deletes == ExportOf(st, room).deletes by {
      forall d ensures d in ExportOf(other, room).deletes <==> d in ExportOf(st, room).deletes {
        DeletesAre(st, room, d);
        DeletesAre(other, room, d);
      }
    }
    SameNamed(st, other, room);
  }

  lemma SameNamed(st: State, other: State, room: ChatKey)
    requires room in st.chats && room in other.chats && Indistinct(st, other)
    ensures var x, y := ExportOf(st, room), ExportOf(other, room); x.account == y.account && x.name == y.name && x.mode == y.mode
  {
  }
}
