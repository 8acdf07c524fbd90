/** The fold of a batch seen from one message: entries for other places do not touch it. */
module PushFold {
  import opened Prelude
  import opened ArchiveTypes
  import opened Ingest
  import opened Disputes
  import opened Import

  /** What a reader sees of a message, with its tombstone and its delivering key. */
  datatype Core = Core(
    body: Body, text: Option<string>, editedAt: Option<Time>, deletedAt: Option<Time>, pushKey: Option<KeyId>)

  function CoreOf(s: Slot): Core {
    Core(s.row.body, s.row.text, s.row.editedAt, s.row.deletedAt, s.row.pushKey)
  }

  function CoreAt(st: State, p: Place): Option<Core> {
    if p in st.messages then Some(CoreOf(st.messages[p])) else None
  }

  /** First writer wins, a strictly newer dated entry replaces the text, a tombstone never moves. */
  function CoreStep(c: Option<Core>, e: Entry, key: KeyId): Option<Core> {
    match c
    case None => Some(Core(BodyOf(ToIncoming(e)), e.text, e.editedAt, None, Some(key)))
    case Some(d) =>
      if d.deletedAt.None? && e.editedAt.Some? && (d.editedAt.None? || d.editedAt.value < e.editedAt.value)
      then Some(d.(text := e.text, editedAt := e.editedAt)) else c
  }

  function CoreFold(c: Option<Core>, es: seq<Entry>, key: KeyId): Option<Core> {
    if es == [] then c else CoreStep(CoreFold(c, es[..|es| - 1], key), es[|es| - 1], key)
  }

  /** The entries of a batch that name one message. */
  function Naming(ms: seq<Entry>, chat: string, ext: string): seq<Entry> {
    if ms == [] then []
    else
      var e := ms[|ms| - 1];
      Naming(ms[..|ms| - 1], chat, ext) + if e.chat == chat && e.ext == ext then [e] else []
  }

  function PlaceIn(src: SourceId, e: Entry): Place {
    Place(src, e.chat, e.ext)
  }

  lemma OneEntryCore(a: Acc, ctx: Ctx, e: Entry, p: Place)
    requires OneEntry(a, ctx, e).Folded?
    ensures CoreAt(OneEntry(a, ctx, e).acc.st, p) ==
      if p == PlaceIn(ctx.src, e) then CoreStep(CoreAt(a.st, p), e, ctx.key) else CoreAt(a.st, p)
  {
    hide Pending, Full, ChatAfter;
  }

  lemma CoreFoldSnoc(c: Option<Core>, es: seq<Entry>, e: Entry, key: KeyId)
    ensures CoreFold(c, es + [e], key) == CoreStep(CoreFold(c, es, key), e, key)
  {
    assert (es + [e])[..|es|] == es;
  }

  lemma {:induction false} EntriesCore(a: Acc, ctx: Ctx, ms: seq<Entry>, p: Place)
    requires Entries(a, ctx, ms).Folded? && p.source == ctx.src
    ensures CoreAt(Entries(a, ctx, ms).acc.st, p) == CoreFold(CoreAt(a.st, p), Naming(ms, p.chat, p.ext), ctx.key)
  {
    hide OneEntry, CoreStep, CoreAt;
    if ms != [] {
      var rest, e := ms[..|ms| - 1], ms[|ms| - 1];
      EntriesCore(a, ctx, rest, p);
      OneEntryCore(Entries(a, ctx, rest).acc, ctx, e, p);
      CoreFoldSnoc(CoreAt(a.st, p), Naming(rest, p.chat, p.ext), e, ctx.key);
      assert Naming(rest, p.chat, p.ext) + [] == Naming(rest, p.chat, p.ext);
    }
  }

  lemma OneEntryElsewhere(a: Acc, ctx: Ctx, e: Entry, p: Place)
    requires OneEntry(a, ctx, e).Folded? && p != PlaceIn(ctx.src, e)
    ensures Get(OneEntry(a, ctx, e).acc.st.messages, p) == Get(a.st.messages, p)
  {
    hide Pending, Full;
  }

  /** Messages the batch does not name keep their whole slot. */
  lemma {:induction false} EntriesElsewhere(a: Acc, ctx: Ctx, ms: seq<Entry>, p: Place)
    requires Entries(a, ctx, ms).Folded? && (Naming(ms, p.chat, p.ext) == [] || p.source != ctx.src)
    ensures Get(Entries(a, ctx, ms).acc.st.messages, p) == Get(a.st.messages, p)
  {
    hide OneEntry;
    if ms != [] {
      EntriesElsewhere(a, ctx, ms[..|ms| - 1], p);
      OneEntryElsewhere(Entries(a, ctx, ms[..|ms| - 1]).acc, ctx, ms[|ms| - 1], p);
    }
  }

  // ---- the fold, seen from one chat ----

  predicate NamesRoom(ms: seq<Entry>, src: SourceId, room: ChatKey) {
    room.source == src && exists e :: e in ms && e.chat == room.chat
  }

  lemma OneEntryRooms(a: Acc, ctx: Ctx, e: Entry, room: ChatKey)
    requires OneEntry(a, ctx, e).Folded?
    ensures var f := OneEntry(a, ctx, e).acc; var named := room == ChatKey(ctx.src, e.chat);
      && (room in f.st.chats <==> room in a.st.chats || named) && (room in f.touched <==> room in a.touched || named)
      && (!named ==> Get(f.st.chats, room) == Get(a.st.chats, room))
  {
    hide Pending, Full, PushedEditApplies;
  }

  /** A chat exists after the fold if it did before or an entry names it; only named chats change, and they are touched. */
  lemma {:induction false} EntriesRooms(a: Acc, ctx: Ctx, ms: seq<Entry>, room: ChatKey)
    requires Entries(a, ctx, ms).Folded?
    ensures var f := Entries(a, ctx, ms).acc; var named := NamesRoom(ms, ctx.src, room);
      && (room in f.st.chats <==> room in a.st.chats || named) && (room in f.touched <==> room in a.touched || named)
      && (!named ==> Get(f.st.chats, room) == Get(a.st.chats, room))
  {
    hide OneEntry;
    if ms != [] {
      var front, e := ms[..|ms| - 1], ms[|ms| - 1];
      assert forall x :: x in ms <==> x in front || x == e;
      EntriesRooms(a, ctx, front, room);
      OneEntryRooms(Entries(a, ctx, front).acc, ctx, e, room);
    }
  }

  // ---- a whole batch, seen from one message ----

  predicate Deletes1(d: Deletion, p: Place) {
    d.ext == p.ext && DeleteTargets(DeleteRef(Some(d.chat), d.ext, None), p.chat)
  }

  predicate Spares(ds: seq<Deletion>, p: Place) {
    forall d :: d in ds ==> !Deletes1(d, p)
  }

  lemma {:induction false} DeletesSpare(st: State, src: SourceId, ds: seq<Deletion>, now: Time, p: Place)
    requires Spares(ds, p) || p.source != src
    ensures Get(Deletes(st, src, ds, now).0.messages, p) == Get(st.messages, p)
  {
    if ds != [] {
      assert ds[|ds| - 1] in ds;
      assert forall d :: d in ds[..|ds| - 1] ==> d in ds;
      DeletesSpare(st, src, ds[..|ds| - 1], now, p);
    }
  }

  /** The fold inside an accepted batch, with the source it resolved to. */
  ghost function Folding(st: State, key: KeyId, b: Batch, now: Time): (Ctx, Folded) {
    var (st1, src) := UpsertSource(st, key, b.source);
    var ctx := Ctx(src, b.source.channel, key, now);
    (ctx, Entries(Start(st1, Some(Pending(st1.messages))), ctx, b.messages))
  }

  lemma ImportUnfolds(st: State, key: KeyId, b: Batch, now: Time)
    requires ImportBatch(st, key, b, now).1.Ok?
    ensures var (ctx, f) := Folding(st, key, b, now);
      f.Folded? && ctx.key == key && ctx.now == now && ctx.src == ImportBatch(st, key, b, now).1.value.source &&
      ctx.src == UpsertSource(st, key, b.source).1 &&
      ImportBatch(st, key, b, now).0 == Finish(f.acc, ctx, b).0
  {
    hide Entries, Pending, UpsertSource;
  }

  lemma ImportCore(st: State, key: KeyId, b: Batch, now: Time, p: Place)
    requires ImportBatch(st, key, b, now).1.Ok? && p.source == ImportBatch(st, key, b, now).1.value.source
    requires Spares(b.deletes, p)
    ensures CoreAt(ImportBatch(st, key, b, now).0, p) == CoreFold(CoreAt(st, p), Naming(b.messages, p.chat, p.ext), key)
  {
    ImportUnfolds(st, key, b, now);
    var (ctx, f) := Folding(st, key, b, now);
    var st1 := UpsertSource(st, key, b.source).0;
    assert st1.messages == st.messages;
    hide Entries, ImportBatch, Pending, UpsertSource, Spares;
    EntriesCore(Start(st1, Some(Pending(st1.messages))), ctx, b.messages, p);
    DeletesSpare(f.acc.st, ctx.src, b.deletes, now, p);
  }
}
