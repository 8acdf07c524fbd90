/** lib/services/chat-export.ts, and how the push door undoes it. */
module RoundTrip {
  import opened Prelude
  import opened ArchiveTypes
  import opened Ingest
  import opened Disputes
  import opened Import
  import opened PushFold
  import opened Runs
  import opened Consistency
  import opened Convergence
  import opened Replay

  // ---- exportChat ----

  /** One exported message without its provenance: raw leaves only with a row that a known key delivered. */
  function Exported(st: State, chat: Chat, p: Place): Entry
    requires p in st.messages
  {
    var row := st.messages[p].row;
    var b := row.body;
    Entry(p.chat, chat.kind, chat.title, p.ext, b.sender, b.senderName, b.fromOwner, b.sentAt, b.kind, row.text,
          b.replyTo, row.editedAt, if row.pushKey.Some? && row.pushKey.value in st.keys then Some(b.raw) else None)
  }

  datatype ChatExport = ChatExport(
    channel: string, account: Option<string>, name: Option<string>, mode: Mode,
    title: Option<string>, kind: ChatKind, messageCount: nat, messages: set<Entry>, deletes: set<Deletion>)

  function LiveRows(st: State, room: ChatKey): set<Place> {
    set p | p in st.messages && p.Room() == room && st.messages[p].row.deletedAt.None?
  }

  function ExportedMessages(st: State, room: ChatKey): set<Entry> {
    if room !in st.chats then {}
    else set p | p in st.messages && p in LiveRows(st, room) :: Exported(st, st.chats[room], p)
  }

  function ExportOf(st: State, room: ChatKey): ChatExport
    requires room in st.chats
  {
    var chat := st.chats[room];
    var source := Get(st.sources, room.source);
    ChatExport(
      chat.channel,
      if source.Some? && source.value.mode == Mode.Push then source.value.account else None,
      if source.Some? then source.value.name else None,
      if source.Some? then source.value.mode else Live,
      chat.title, chat.kind, |LiveRows(st, room)|, ExportedMessages(st, room),
      set p | p in st.messages && p.Room() == room && st.messages[p].row.deletedAt.Some? :: Deletion(p.chat, p.ext))
  }

  // ---- back into its own source ----

  /** The batch carries nothing but entries and deletes of the export, in any order and number. */
  ghost predicate From(b: Batch, x: ChatExport) {
    && (forall e :: e in b.messages ==> e in x.messages)
    && (forall d :: d in b.deletes ==> d in x.deletes)
  }

  lemma OwnEntryIdle(a: Acc, ctx: Ctx, e: Entry, room: ChatKey)
    requires Inv(a.st) && room.source == ctx.src && room in a.st.chats && e in ExportedMessages(a.st, room)
    ensures OneEntry(a, ctx, e) == Folded(a.(duplicates := a.duplicates + 1, touched := a.touched + {room}))
  {
    hide SlotsOk, SourcesUnique, WithinCapacity, Capture;
    var p :| p in a.st.messages && p in LiveRows(a.st, room) && e == Exported(a.st, a.st.chats[room], p);
    assert p == Place(ctx.src, e.chat, e.ext);
    assert ChatAfter(Some(a.st.chats[room]), ctx.channel, ToIncoming(e)) == a.st.chats[room];
    assert UpsertChat(a.st, ctx.src, ctx.channel, ToIncoming(e)) == a.st;
  }

  lemma {:induction false} OwnEntriesIdle(a: Acc, ctx: Ctx, ms: seq<Entry>, room: ChatKey)
    requires Inv(a.st) && room.source == ctx.src && room in a.st.chats
    requires forall e :: e in ms ==> e in ExportedMessages(a.st, room)
    ensures Entries(a, ctx, ms) ==
      Folded(a.(duplicates := a.duplicates + |ms|, touched := a.touched + if ms == [] then {} else {room}))
  {
    hide Inv, OneEntry, ExportedMessages;
    if ms == [] {
      assert a.touched + {} == a.touched;
    } else {
      var rest, e := ms[..|ms| - 1], ms[|ms| - 1];
      assert e in ms && forall x :: x in rest ==> x in ms;
      OwnEntriesIdle(a, ctx, rest, room);
      OwnEntryIdle(Entries(a, ctx, rest).acc, ctx, e, room);
      assert a.touched + {room} + {room} == a.touched + {room};
    }
  }

  lemma OwnDeletesIdle(st: State, room: ChatKey, ds: seq<Deletion>)
    requires room in st.chats && room.chat != "" && forall d :: d in ds ==> d in ExportOf(st, room).deletes
    ensures AllBuried(st, room.source, ds)
  {
    forall d, p | d in ds && p in st.messages && p.source == room.source && Deletes1(d, p)
      ensures st.messages[p].row.deletedAt.Some?
    {
      var q :| q in st.messages && q.Room() == room && st.messages[q].row.deletedAt.Some? && d == Deletion(q.chat, q.ext);
      assert p == q;
    }
  }

  /** Only the stamps of the source and the chat move. */
  ghost predicate OnlyStamped(st: State, end: State) {
    && end.messages == st.messages && end.keys == st.keys && end.serial == st.serial
    && end.chats.Keys == st.chats.Keys
    && (forall c :: c in st.chats ==>
          end.chats[c] == st.chats[c].(lastPushAt := end.chats[c].lastPushAt, lastPushKey := end.chats[c].lastPushKey))
    && end.sources.Keys == st.sources.Keys
  }

  lemma FinishStamps(a: Acc, ctx: Ctx, b: Batch)
    requires Deletes(a.st, ctx.src, b.deletes, ctx.now) == (a.st, 0) && ctx.src in a.st.sources
    ensures var (end, r) := Finish(a, ctx, b);
      OnlyStamped(a.st, end) && r == ImportResult(ctx.src, a.inserted, a.duplicates, a.edited, 0, a.conflicts, a.conflicting)
  {
    hide Deletes;
  }

  lemma SourceFound(st: State, key: KeyId, ref: SourceRef, src: SourceId)
    requires Inv(st) && FindSource(st.sources, ref) == Some(src)
    ensures src in st.sources && UpsertSource(st, key, ref) == (st.(sources := UpsertSource(st, key, ref).0.sources), src)
    ensures UpsertSource(st, key, ref).0.sources.Keys == st.sources.Keys && Inv(UpsertSource(st, key, ref).0)
  {
    UpsertSourceKeeps(st, key, ref);
    hide Inv;
  }

  lemma ImportIsFold(st: State, key: KeyId, b: Batch, now: Time)
    requires MayPush(st, key) && Folding(st, key, b, now).1.Folded?
    ensures var (ctx, f) := Folding(st, key, b, now);
      ImportBatch(st, key, b, now) == (Finish(f.acc, ctx, b).0, Ok(Finish(f.acc, ctx, b).1))
  {
    hide Entries, Pending, UpsertSource, Finish;
  }

  /** A chat re-imported into its own source: every entry is a duplicate, nothing is edited, buried or disputed. */
  lemma OwnExportIsIdle(st: State, room: ChatKey, key: KeyId, b: Batch, now: Time)
    requires Inv(st) && MayPush(st, key) && room in st.chats && room.chat != ""
    requires FindSource(st.sources, b.source) == Some(room.source) && From(b, ExportOf(st, room))
    ensures var (end, out) := ImportBatch(st, key, b, now);
      out == Ok(ImportResult(room.source, 0, |b.messages|, 0, 0, 0, [])) && OnlyStamped(st, end)
  {
    var st1 := UpsertSource(st, key, b.source).0;
    SourceFound(st, key, b.source, room.source);
    OwnDeletesIdle(st, room, b.deletes);
    assert AllBuried(st1, room.source, b.deletes);
    var (ctx, f) := Folding(st, key, b, now);
    assert ctx == Ctx(room.source, b.source.channel, key, now);
    var a := Start(st1, Some(Pending(st1.messages)));
    assert f == Entries(a, ctx, b.messages);
    assert forall e :: e in b.messages ==> e in ExportedMessages(st1, room);
    hide Inv, Entries, Pending, FindSource, ExportedMessages, ExportOf, AllBuried, Deletes, UpsertSource, Folding, ImportBatch,
      Finish;
    OwnEntriesIdle(a, ctx, b.messages, room);
    DeletesIdle(st1, room.source, b.deletes, now);
    ImportIsFold(st, key, b, now);
    FinishStamps(f.acc, ctx, b);
  }

  // ---- into an empty source ----

  /** Every live row of the chat came through the push door. */
  ghost predicate AllPushed(st: State, room: ChatKey) {
    forall p :: p in LiveRows(st, room) && p in st.messages ==>
      st.messages[p].row.pushKey.Some? && st.messages[p].row.pushKey.value in st.keys
  }

  ghost predicate Copies(c: Option<Core>, e: Entry, keys: set<KeyId>) {
    c.Some? && c.value.body == BodyOf(ToIncoming(e)) && c.value.text == e.text && c.value.editedAt == e.editedAt &&
    c.value.deletedAt.None? && c.value.pushKey.Some? && c.value.pushKey.value in keys
  }

  lemma {:induction false} FoldCopies(c: Option<Core>, es: seq<Entry>, key: KeyId, e: Entry, keys: set<KeyId>)
    requires (c.None? || Copies(c, e, keys)) && key in keys
    requires forall x :: x in es ==> x == e
    ensures if c.None? && es == [] then CoreFold(c, es, key).None? else Copies(CoreFold(c, es, key), e, keys)
  {
    if es != [] {
      var rest := es[..|es| - 1];
      assert es[|es| - 1] in es;
      forall x | x in rest ensures x == e {
        assert x in es;
      }
      FoldCopies(c, rest, key, e, keys);
    }
  }

  lemma ExportUnique(st: State, room: ChatKey, e: Entry, f: Entry)
    requires e in ExportedMessages(st, room) && f in ExportedMessages(st, room) && e.ext == f.ext
    ensures e == f && e.chat == room.chat
  {
    var p :| p in st.messages && p in LiveRows(st, room) && e == Exported(st, st.chats[room], p);
    var q :| q in st.messages && q in LiveRows(st, room) && f == Exported(st, st.chats[room], q);
    assert p == q;
  }

  lemma ExportSpares(st: State, room: ChatKey, ds: seq<Deletion>, e: Entry, src: SourceId)
    requires room.chat != "" && e in ExportedMessages(st, room)
    requires forall d :: d in ds ==> d in ExportOf(st, room).deletes
    ensures Spares(ds, PlaceIn(src, e))
  {
    var p :| p in st.messages && p in LiveRows(st, room) && e == Exported(st, st.chats[room], p);
    forall d | d in ds ensures !Deletes1(d, PlaceIn(src, e)) {
      var q :| q in st.messages && q.Room() == room && st.messages[q].row.deletedAt.Some? && d == Deletion(q.chat, q.ext);
      assert p.ext == q.ext ==> p == q;
    }
  }

  /** The uploads of a re-import: accepted, into one source, made of nothing but the export. */
  ghost predicate Uploads(st: State, ps: seq<Push>, src: SourceId, x: ChatExport) {
    forall i :: 0 <= i < |ps| ==>
      var out := ImportBatch(PushAll(st, ps[..i]), ps[i].key, ps[i].batch, ps[i].now).1;
      out.Ok? && out.value.source == src && From(ps[i].batch, x)
  }

  lemma UploadsPrefix(st: State, ps: seq<Push>, src: SourceId, x: ChatExport)
    requires ps != [] && Uploads(st, ps, src, x)
    ensures var rest, p := ps[..|ps| - 1], ps[|ps| - 1]; var out := ImportBatch(PushAll(st, rest), p.key, p.batch, p.now).1;
      Uploads(st, rest, src, x) && out.Ok? && out.value.source == src && From(p.batch, x)
  {
    hide ImportBatch, From;
    var rest := ps[..|ps| - 1];
    assert forall i :: 0 <= i < |rest| ==> rest[..i] == ps[..i];
  }

  lemma UploadStepAt(from: State, room: ChatKey, st: State, q: Push, src: SourceId, e: Entry, keys: set<KeyId>)
    requires room in from.chats && room.chat != "" && e in ExportedMessages(from, room) && q.key in keys
    requires var out := ImportBatch(st, q.key, q.batch, q.now).1; out.Ok? && out.value.source == src
    requires From(q.batch, ExportOf(from, room))
    ensures var p := PlaceIn(src, e); var c, d := CoreAt(st, p), CoreAt(ImportBatch(st, q.key, q.batch, q.now).0, p);
      c.None? || Copies(c, e, keys) ==>
        if c.None? && Naming(q.batch.messages, p.chat, p.ext) == [] then d.None? else Copies(d, e, keys)
  {
    var p := PlaceIn(src, e);
    ExportSpares(from, room, q.batch.deletes, e, src);
    NamingOnly(q.batch.messages, p.chat, p.ext);
    forall x | x in Naming(q.batch.messages, p.chat, p.ext) ensures x == e {
      assert x in ExportedMessages(from, room);
      ExportUnique(from, room, x, e);
    }
    hide ImportBatch, Spares, ExportedMessages, ExportOf, From, Copies, CoreAt;
    ImportCore(st, q.key, q.batch, q.now, p);
    if CoreAt(st, p).None? || Copies(CoreAt(st, p), e, keys) {
      FoldCopies(CoreAt(st, p), Naming(q.batch.messages, p.chat, p.ext), q.key, e, keys);
    }
  }

  /** One message after the uploads: absent until first named, then a copy of its exported entry. */
  lemma {:induction false} PlaceReadsBack(from: State, room: ChatKey, st: State, ps: seq<Push>, src: SourceId, e: Entry,
      keys: set<KeyId>)
    requires room in from.chats && room.chat != "" && e in ExportedMessages(from, room)
    requires Uploads(st, ps, src, ExportOf(from, room)) && PlaceIn(src, e) !in st.messages
    requires forall i :: 0 <= i < |ps| ==> ps[i].key in keys
    ensures var p := PlaceIn(src, e); var c := CoreAt(PushAll(st, ps), p);
      if Heard(ps, p) == [] then c.None? else Copies(c, e, keys)
  {
    hide ImportBatch, From, Copies, Exported, LiveRows, ExportOf, ExportedMessages, Uploads;
    if ps != [] {
      var rest, q := ps[..|ps| - 1], ps[|ps| - 1];
      UploadsPrefix(st, ps, src, ExportOf(from, room));
      assert forall i :: 0 <= i < |rest| ==> rest[i] == ps[i];
      PlaceReadsBack(from, room, st, rest, src, e, keys);
      UploadStepAt(from, room, PushAll(st, rest), q, src, e, keys);
    }
  }

  /** Places no exported entry names stay empty. */
  lemma {:induction false} NothingElse(from: State, room: ChatKey, st: State, ps: seq<Push>, src: SourceId, p: Place)
    requires room in from.chats && p.source == src && p !in st.messages
    requires Uploads(st, ps, src, ExportOf(from, room))
    requires forall e :: e in ExportedMessages(from, room) ==> PlaceIn(src, e) != p
    ensures p !in PushAll(st, ps).messages && Heard(ps, p) == []
  {
    if ps != [] {
      var rest, q := ps[..|ps| - 1], ps[|ps| - 1];
      UploadsPrefix(st, ps, src, ExportOf(from, room));
      NothingElse(from, room, st, rest, src, p);
      var mid := PushAll(st, rest);
      forall e | e in q.batch.messages ensures PlaceIn(src, e) != p {
        assert e in ExportedMessages(from, room);
      }
      NamesNone(q.batch.messages, p);
      UnnamedStaysAbsent(mid, q.key, q.batch, q.now, p);
    }
  }

  lemma {:induction false} NamesNone(ms: seq<Entry>, p: Place)
    requires forall e :: e in ms ==> PlaceIn(p.source, e) != p
    ensures Naming(ms, p.chat, p.ext) == []
  {
    if ms != [] {
      NamesNone(ms[..|ms| - 1], p);
      assert ms[|ms| - 1] in ms;
    }
  }

  lemma UnnamedStaysAbsent(st: State, key: KeyId, b: Batch, now: Time, p: Place)
    requires ImportBatch(st, key, b, now).1.Ok? && p !in st.messages && Naming(b.messages, p.chat, p.ext) == []
    ensures p !in ImportBatch(st, key, b, now).0.messages
  {
    ImportUnfolds(st, key, b, now);
    var (ctx, f) := Folding(st, key, b, now);
    var st1 := UpsertSource(st, key, b.source).0;
    hide Entries, ImportBatch, Pending, UpsertSource, Deletes;
    EntriesElsewhere(Start(st1, Some(Pending(st1.messages))), ctx, b.messages, p);
    DeletesOnlyBury(f.acc.st, ctx.src, b.deletes, now, p);
  }

  /** The chat row, once there, carries the exported title and kind. */
  ghost predicate Says(st: State, room: ChatKey, title: Option<string>, kind: ChatKind) {
    room in st.chats ==> st.chats[room].title == title && st.chats[room].kind == kind
  }

  lemma {:induction false} EntriesSay(a: Acc, ctx: Ctx, ms: seq<Entry>, room: ChatKey, title: Option<string>, kind: ChatKind)
    requires Entries(a, ctx, ms).Folded? && Says(a.st, room, title, kind)
    requires forall e :: e in ms ==> e.chatTitle == title && e.chatKind == kind
    ensures Says(Entries(a, ctx, ms).acc.st, room, title, kind)
  {
    hide OneEntry;
    if ms != [] {
      var rest, e := ms[..|ms| - 1], ms[|ms| - 1];
      assert e in ms && forall x :: x in rest ==> x in ms;
      EntriesSay(a, ctx, rest, room, title, kind);
      OneEntryChats(Entries(a, ctx, rest).acc, ctx, e);
    }
  }

  lemma FinishSays(a: Acc, ctx: Ctx, b: Batch, room: ChatKey, title: Option<string>, kind: ChatKind)
    requires Inv(a.st) && Says(a.st, room, title, kind)
    ensures var end := Finish(a, ctx, b).0; Says(end, room, title, kind) && end.keys == a.st.keys
  {
    DeletesKeep(a.st, ctx.src, b.deletes, ctx.now);
    hide Deletes, Inv;
  }

  lemma ImportSays(st: State, key: KeyId, b: Batch, now: Time, room: ChatKey, title: Option<string>, kind: ChatKind)
    requires Inv(st) && ImportBatch(st, key, b, now).1.Ok? && Says(st, room, title, kind)
    requires forall e :: e in b.messages ==> e.chatTitle == title && e.chatKind == kind
    ensures var end := ImportBatch(st, key, b, now).0; Says(end, room, title, kind) && end.keys == st.keys
  {
    ImportUnfolds(st, key, b, now);
    UpsertSourceKeeps(st, key, b.source);
    var (ctx, f) := Folding(st, key, b, now);
    var st1 := UpsertSource(st, key, b.source).0;
    var a := Start(st1, Some(Pending(st1.messages)));
    hide Entries, ImportBatch, Pending, UpsertSource, Finish, Inv;
    EntriesKeep(a, ctx, b.messages);
    EntriesSay(a, ctx, b.messages, room, title, kind);
    EntriesKeys(a, ctx, b.messages);
    FinishSays(f.acc, ctx, b, room, title, kind);
  }

  lemma {:induction false} EntriesKeys(a: Acc, ctx: Ctx, ms: seq<Entry>)
    requires Entries(a, ctx, ms).Folded?
    ensures Entries(a, ctx, ms).acc.st.keys == a.st.keys
  {
    hide OneEntry;
    if ms != [] {
      EntriesKeys(a, ctx, ms[..|ms| - 1]);
      OneEntryKeys(Entries(a, ctx, ms[..|ms| - 1]).acc, ctx, ms[|ms| - 1]);
    }
  }

  lemma OneEntryKeys(a: Acc, ctx: Ctx, e: Entry)
    requires OneEntry(a, ctx, e).Folded?
    ensures OneEntry(a, ctx, e).acc.st.keys == a.st.keys
  {
    hide Pending, Full;
  }

  /** One upload: the invariant, the chat's face and the keys are kept. */
  lemma UploadStep(from: State, room: ChatKey, st: State, q: Push, src: SourceId)
    requires Inv(st) && room in from.chats && Says(st, ChatKey(src, room.chat), from.chats[room].title, from.chats[room].kind)
    requires ImportBatch(st, q.key, q.batch, q.now).1.Ok? && From(q.batch, ExportOf(from, room))
    ensures var end := ImportBatch(st, q.key, q.batch, q.now).0;
      Inv(end) && Says(end, ChatKey(src, room.chat), from.chats[room].title, from.chats[room].kind) &&
      end.keys == st.keys && q.key in st.keys
  {
    forall e | e in q.batch.messages ensures e.chatTitle == from.chats[room].title && e.chatKind == from.chats[room].kind {
      assert e in ExportedMessages(from, room);
    }
    assert q.key in st.keys by { hide Entries, Finish, Pending, UpsertSource; }
    hide ImportBatch, Inv, ExportOf, From, Says;
    ImportKeeps(st, q.key, q.batch, q.now);
    ImportSays(st, q.key, q.batch, q.now, ChatKey(src, room.chat), from.chats[room].title, from.chats[room].kind);
  }

  lemma {:induction false} UploadsSound(from: State, room: ChatKey, st: State, ps: seq<Push>, src: SourceId)
    requires Inv(st) && room in from.chats && ChatKey(src, room.chat) !in st.chats
    requires Uploads(st, ps, src, ExportOf(from, room))
    ensures Inv(PushAll(st, ps))
    ensures Says(PushAll(st, ps), ChatKey(src, room.chat), from.chats[room].title, from.chats[room].kind)
    ensures PushAll(st, ps).keys == st.keys
  {
    hide ImportBatch, Inv, Uploads, ExportOf, Says, From;
    if ps != [] {
      var rest, q := ps[..|ps| - 1], ps[|ps| - 1];
      UploadsPrefix(st, ps, src, ExportOf(from, room));
      UploadsSound(from, room, st, rest, src);
      UploadStep(from, room, PushAll(st, rest), q, src);
    } else {
      assert Says(st, ChatKey(src, room.chat), from.chats[room].title, from.chats[room].kind) by { SaysNothing(st, room, src); }
    }
  }

  lemma SaysNothing(st: State, room: ChatKey, src: SourceId)
    requires ChatKey(src, room.chat) !in st.chats
    ensures forall title, kind :: Says(st, ChatKey(src, room.chat), title, kind)
  {
  }

  lemma UploadKey(from: State, room: ChatKey, st: State, ps: seq<Push>, src: SourceId, i: nat)
    requires Inv(st) && room in from.chats && ChatKey(src, room.chat) !in st.chats
    requires i < |ps| && Uploads(st, ps, src, ExportOf(from, room))
    ensures ps[i].key in st.keys
  {
    hide ImportBatch, Inv, ExportOf, Says, From, Uploads, PushAll;
    UploadsTake(st, ps, src, ExportOf(from, room), i);
    UploadsSound(from, room, st, ps[..i], src);
    UploadStep(from, room, PushAll(st, ps[..i]), ps[i], src);
  }

  lemma UploadsTake(st: State, ps: seq<Push>, src: SourceId, x: ChatExport, i: nat)
    requires i < |ps| && Uploads(st, ps, src, x)
    ensures Uploads(st, ps[..i], src, x)
    ensures var out := ImportBatch(PushAll(st, ps[..i]), ps[i].key, ps[i].batch, ps[i].now).1;
      out.Ok? && From(ps[i].batch, x)
  {
    hide ImportBatch, From, PushAll;
    assert forall j :: 0 <= j < i ==> ps[..i][..j] == ps[..j];
  }

  /** Every exported entry is in some upload. */
  ghost predicate Covered(ps: seq<Push>, x: ChatExport) {
    forall e :: e in x.messages ==> exists i :: 0 <= i < |ps| && e in ps[i].batch.messages
  }

  lemma {:induction false} HeardSome(ps: seq<Push>, i: nat, e: Entry, p: Place)
    requires i < |ps| && e in ps[i].batch.messages && p.chat == e.chat && p.ext == e.ext
    ensures Heard(ps, p) != []
  {
    if i == |ps| - 1 {
      NamingHas(ps[i].batch.messages, e);
    } else {
      HeardSome(ps[..|ps| - 1], i, e, p);
    }
  }

  /** The entry a copied row exports is the entry it came from. */
  lemma CopyExports(st: State, room: ChatKey, p: Place, e: Entry)
    requires room in st.chats && p.Room() == room && p == PlaceIn(room.source, e)
    requires st.chats[room].title == e.chatTitle && st.chats[room].kind == e.chatKind && e.raw.Some?
    requires Copies(CoreAt(st, p), e, st.keys.Keys)
    ensures p in LiveRows(st, room) && Exported(st, st.chats[room], p) == e
  {
  }

  lemma FromPushed(from: State, room: ChatKey, e: Entry)
    requires room in from.chats && e in ExportedMessages(from, room) && AllPushed(from, room)
    ensures e.raw.Some? && e.chatTitle == from.chats[room].title && e.chatKind == from.chats[room].kind && e.chat == room.chat
  {
  }

  /**
    * A pushed chat's export, uploaded into a source that holds nothing yet, in any order and split and with any
    * repetitions, exports again as the same set of messages. Its tombstones do not travel.
    */
  lemma ExportImportExport(from: State, room: ChatKey, st: State, ps: seq<Push>, src: SourceId)
    requires room in from.chats && room.chat != "" && AllPushed(from, room)
    requires Inv(st) && (forall p :: p in st.messages ==> p.source != src) && (forall c :: c in st.chats ==> c.source != src)
    requires Uploads(st, ps, src, ExportOf(from, room)) && Covered(ps, ExportOf(from, room))
    ensures var end, copy := PushAll(st, ps), ChatKey(src, room.chat); var x := ExportOf(from, room);
      ExportedMessages(end, copy) == x.messages &&
      (copy in end.chats ==> var y := ExportOf(end, copy);
         y.title == x.title && y.kind == x.kind && y.messages == x.messages && y.deletes == {}) &&
      (x.messages != {} ==> copy in end.chats)
  {
    var end, copy := PushAll(st, ps), ChatKey(src, room.chat);
    var xs := ExportedMessages(from, room);
    UploadsSound(from, room, st, ps, src);
    forall e | e in xs ensures e in ExportedMessages(end, copy) && copy in end.chats {
      EntryReturns(from, room, st, ps, src, e);
    }
    forall p | p in end.messages && p.Room() == copy
      ensures end.messages[p].row.deletedAt.None? && Exported(end, end.chats[copy], p) in xs
    {
      RowCameFrom(from, room, st, ps, src, p);
    }
    hide Inv, Uploads, Covered, Exported, AllPushed, PushAll;
  }

  lemma CopyIsThere(c: Option<Core>, e: Entry, keys: set<KeyId>)
    requires Copies(c, e, keys)
    ensures c.Some?
  {
  }

  lemma EntryReturns(from: State, room: ChatKey, st: State, ps: seq<Push>, src: SourceId, e: Entry)
    requires room in from.chats && room.chat != "" && AllPushed(from, room) && e in ExportedMessages(from, room)
    requires Inv(st) && (forall p :: p in st.messages ==> p.source != src) && (forall c :: c in st.chats ==> c.source != src)
    requires Uploads(st, ps, src, ExportOf(from, room)) && Covered(ps, ExportOf(from, room))
    ensures var end, copy := PushAll(st, ps), ChatKey(src, room.chat); var p := PlaceIn(src, e);
      copy in end.chats && p in LiveRows(end, copy) && p in end.messages && Exported(end, end.chats[copy], p) == e
  {
    hide Inv, PushAll, Heard, Copies, Exported, LiveRows, Uploads, AllPushed;
    var end, copy := PushAll(st, ps), ChatKey(src, room.chat);
    var p := PlaceIn(src, e);
    UploadsSound(from, room, st, ps, src);
    FromPushed(from, room, e);
    var i :| 0 <= i < |ps| && e in ps[i].batch.messages;
    HeardSome(ps, i, e, p);
    forall j | 0 <= j < |ps| ensures ps[j].key in st.keys {
      UploadKey(from, room, st, ps, src, j);
    }
    PlaceReadsBack(from, room, st, ps, src, e, st.keys.Keys);
    hide Covered, ExportedMessages, ExportOf;
    assert CoreAt(end, p).Some? by { CopyIsThere(CoreAt(end, p), e, st.keys.Keys); }
    RoomExists(end, p);
    assert p.Room() == copy;
    CopyExports(end, copy, p, e);
  }

  lemma RowCameFrom(from: State, room: ChatKey, st: State, ps: seq<Push>, src: SourceId, p: Place)
    requires room in from.chats && room.chat != "" && AllPushed(from, room)
    requires Inv(st) && (forall p :: p in st.messages ==> p.source != src) && (forall c :: c in st.chats ==> c.source != src)
    requires Uploads(st, ps, src, ExportOf(from, room)) && Covered(ps, ExportOf(from, room))
    requires var end := PushAll(st, ps); p in end.messages && p.Room() == ChatKey(src, room.chat)
    ensures var end, copy := PushAll(st, ps), ChatKey(src, room.chat);
      copy in end.chats && end.messages[p].row.deletedAt.None? && Exported(end, end.chats[copy], p) in ExportedMessages(from, room)
  {
    var end := PushAll(st, ps);
    if e :| e in ExportedMessages(from, room) && PlaceIn(src, e) == p {
      EntryReturns(from, room, st, ps, src, e);
    } else {
      NothingElse(from, room, st, ps, src, p);
      assert false;
    }
  }
}
