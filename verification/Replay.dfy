/** Importing a batch again changes no message: only candidates of the first disagreement may still appear. */
module Replay {
  import opened Prelude
  import opened ArchiveTypes
  import opened Ingest
  import opened Disputes
  import opened Import
  import opened PushFold
  import opened Runs
  import opened Consistency

  // ---- an entry that has nothing left to say ----

  ghost predicate Spent(c: Option<Core>, e: Entry) {
    c.Some? && (c.value.deletedAt.Some? || e.editedAt.None? ||
                (c.value.editedAt.Some? && e.editedAt.value <= c.value.editedAt.value))
  }

  ghost predicate AllSpent(st: State, src: SourceId, ms: seq<Entry>) {
    forall e :: e in ms ==> Spent(CoreAt(st, PlaceIn(src, e)), e)
  }

  lemma StepSpends(c: Option<Core>, e: Entry, key: KeyId, x: Entry)
    requires x == e || Spent(c, x)
    ensures Spent(CoreStep(c, e, key), x)
  {
  }

  lemma {:induction false} FoldSpends(c: Option<Core>, es: seq<Entry>, key: KeyId)
    ensures forall e :: e in es ==> Spent(CoreFold(c, es, key), e)
    ensures c.Some? ==> CoreFold(c, es, key).Some?
  {
    if es != [] {
      var rest, e := es[..|es| - 1], es[|es| - 1];
      FoldSpends(c, rest, key);
      forall x | x in es ensures Spent(CoreFold(c, es, key), x) {
        assert x in rest || x == e;
        StepSpends(CoreFold(c, rest, key), e, key, x);
      }
    }
  }

  lemma {:induction false} NamingHas(ms: seq<Entry>, e: Entry)
    requires e in ms
    ensures e in Naming(ms, e.chat, e.ext)
  {
    if e in ms[..|ms| - 1] {
      NamingHas(ms[..|ms| - 1], e);
    }
  }

  lemma {:induction false} NamingOnly(ms: seq<Entry>, chat: string, ext: string)
    ensures forall e :: e in Naming(ms, chat, ext) ==> e in ms && e.chat == chat && e.ext == ext
  {
    if ms != [] {
      NamingOnly(ms[..|ms| - 1], chat, ext);
    }
  }

  lemma EntriesSpend(a: Acc, ctx: Ctx, ms: seq<Entry>)
    requires Entries(a, ctx, ms).Folded?
    ensures AllSpent(Entries(a, ctx, ms).acc.st, ctx.src, ms)
  {
    hide Entries, CoreFold, Spent, CoreAt;
    forall e | e in ms ensures Spent(CoreAt(Entries(a, ctx, ms).acc.st, PlaceIn(ctx.src, e)), e) {
      var p := PlaceIn(ctx.src, e);
      EntriesCore(a, ctx, ms, p);
      FoldSpends(CoreAt(a.st, p), Naming(ms, p.chat, p.ext), ctx.key);
      NamingHas(ms, e);
    }
  }

  // ---- deletes that have nothing left to bury ----

  ghost predicate AllBuried(st: State, src: SourceId, ds: seq<Deletion>) {
    forall d, p :: d in ds && p in st.messages && p.source == src && Deletes1(d, p) ==> st.messages[p].row.deletedAt.Some?
  }

  /** Deletes only ever bury. */
  lemma {:induction false} DeletesOnlyBury(st: State, src: SourceId, ds: seq<Deletion>, now: Time, p: Place)
    ensures var st1 := Deletes(st, src, ds, now).0;
      (p in st1.messages <==> p in st.messages) &&
      (p in st.messages && st1.messages[p] != st.messages[p] ==> st1.messages[p].row.deletedAt.Some?) &&
      (p in st.messages && st.messages[p].row.deletedAt.Some? ==> st1.messages[p] == st.messages[p])
  {
    if ds != [] {
      DeletesOnlyBury(st, src, ds[..|ds| - 1], now, p);
    }
  }

  lemma {:induction false} DeletesBury(st: State, src: SourceId, ds: seq<Deletion>, now: Time)
    requires Inv(st)
    ensures AllBuried(Deletes(st, src, ds, now).0, src, ds)
  {
    hide Inv, DeleteTargets;
    if ds != [] {
      var rest, d := ds[..|ds| - 1], ds[|ds| - 1];
      DeletesBury(st, src, rest, now);
      DeletesKeep(st, src, rest, now);
      var mid := Deletes(st, src, rest, now).0;
      var end := Deletes(st, src, ds, now).0;
      var ref := DeleteRef(Some(d.chat), d.ext, None);
      assert end == Delete(mid, src, ref, now).0;
      forall x, p | x in ds && p in end.messages && p.source == src && Deletes1(x, p)
        ensures end.messages[p].row.deletedAt.Some?
      {
        assert Deletes1(d, p) <==> p.ext == ref.ext && DeleteTargets(ref, p.chat);
        RoomExists(mid, p);
        assert x in rest || x == d;
      }
    }
  }

  lemma RoomExists(st: State, p: Place)
    requires Inv(st) && p in st.messages
    ensures p.Room() in st.chats
  {
  }

  lemma {:induction false} DeletesIdle(st: State, src: SourceId, ds: seq<Deletion>, now: Time)
    requires AllBuried(st, src, ds)
    ensures Deletes(st, src, ds, now) == (st, 0)
  {
    if ds != [] {
      var d := ds[|ds| - 1];
      assert d in ds && forall x :: x in ds[..|ds| - 1] ==> x in ds;
      DeletesIdle(st, src, ds[..|ds| - 1], now);
      var ref := DeleteRef(Some(d.chat), d.ext, None);
      assert forall p :: p in st.messages ==> !DeleteHits(st, src, ref, p) by {
        forall p | p in st.messages ensures !DeleteHits(st, src, ref, p) {
          assert Deletes1(d, p) <==> p.ext == ref.ext && DeleteTargets(ref, p.chat);
        }
      }
      assert Delete(st, src, ref, now).0.messages == st.messages;
      assert (set p | p in st.messages && DeleteHits(st, src, ref, p)) == {};
    }
  }

  lemma SpentAfterDeletes(st: State, src: SourceId, ms: seq<Entry>, ds: seq<Deletion>, now: Time)
    requires AllSpent(st, src, ms)
    ensures AllSpent(Deletes(st, src, ds, now).0, src, ms)
  {
    hide Deletes;
    var st1 := Deletes(st, src, ds, now).0;
    forall e | e in ms ensures Spent(CoreAt(st1, PlaceIn(src, e)), e) {
      DeletesOnlyBury(st, src, ds, now, PlaceIn(src, e));
    }
  }

  // ---- the second fold ----

  /** Nothing but the conflict mark moved. */
  ghost predicate Quiet(s: Slot, t: Slot) {
    t.row == s.row.(conflictedAt := t.row.conflictedAt)
  }

  /** The candidates an undated, disagreeing copy leaves on a live message. */
  function Disagreements(row: Row, es: seq<Entry>, key: KeyId): set<CandKey> {
    if row.deletedAt.Some? then {}
    else set e | e in es && e.editedAt.None? && e.text != row.text :: CandKey(row.revision, key, e.text)
  }

  ghost predicate Echoed(before: State, after: State, p: Place, es: seq<Entry>, key: KeyId) {
    (p in after.messages <==> p in before.messages) &&
    (p in before.messages ==>
       Quiet(before.messages[p], after.messages[p]) &&
       after.messages[p].cands.Keys == before.messages[p].cands.Keys + Disagreements(before.messages[p].row, es, key))
  }

  lemma OneEntryEcho(a: Acc, ctx: Ctx, e: Entry)
    requires OneEntry(a, ctx, e).Folded? && Spent(CoreAt(a.st, PlaceIn(ctx.src, e)), e)
    ensures var f := OneEntry(a, ctx, e).acc;
      f.inserted == a.inserted && f.edited == a.edited && Echoed(a.st, f.st, PlaceIn(ctx.src, e), [e], ctx.key)
  {
    hide Pending, Full, ChatAfter, NewSlot;
    assert e in [e];
  }

  lemma EchoAgain(st: State, mid: State, end: State, p: Place, es: seq<Entry>, fs: seq<Entry>, key: KeyId)
    requires Echoed(st, mid, p, es, key) && Echoed(mid, end, p, fs, key)
    ensures Echoed(st, end, p, es + fs, key)
  {
    if p in st.messages {
      var row := st.messages[p].row;
      assert Disagreements(row, es + fs, key) == Disagreements(row, es, key) + Disagreements(row, fs, key);
    }
  }

  lemma OneEntryEchoes(a: Acc, ctx: Ctx, e: Entry, p: Place)
    requires OneEntry(a, ctx, e).Folded? && Spent(CoreAt(a.st, PlaceIn(ctx.src, e)), e) && p.source == ctx.src
    ensures Echoed(a.st, OneEntry(a, ctx, e).acc.st, p, if p == PlaceIn(ctx.src, e) then [e] else [], ctx.key)
  {
    hide OneEntry;
    if p == PlaceIn(ctx.src, e) {
      OneEntryEcho(a, ctx, e);
    } else {
      OneEntryElsewhere(a, ctx, e, p);
    }
  }

  lemma {:induction false} EntriesEcho(a: Acc, ctx: Ctx, ms: seq<Entry>, p: Place)
    requires Entries(a, ctx, ms).Folded? && AllSpent(a.st, ctx.src, ms) && p.source == ctx.src
    ensures var f := Entries(a, ctx, ms).acc;
      f.inserted == a.inserted && f.edited == a.edited && Echoed(a.st, f.st, p, Naming(ms, p.chat, p.ext), ctx.key)
  {
    hide OneEntry, Spent, Echoed;
    if ms == [] {
      assert Echoed(a.st, a.st, p, [], ctx.key) by { EchoNothing(a.st, p, ctx.key); }
    } else {
      var rest, e := ms[..|ms| - 1], ms[|ms| - 1];
      assert forall x :: x in rest ==> x in ms;
      EntriesEcho(a, ctx, rest, p);
      var mid := Entries(a, ctx, rest).acc;
      var q := PlaceIn(ctx.src, e);
      EntriesEcho(a, ctx, rest, q);
      EchoCore(a.st, mid.st, q, Naming(rest, q.chat, q.ext), ctx.key);
      OneEntryEcho(mid, ctx, e);
      OneEntryEchoes(mid, ctx, e, p);
      var here := if p == q then [e] else [];
      EchoAgain(a.st, mid.st, Entries(a, ctx, ms).acc.st, p, Naming(rest, p.chat, p.ext), here, ctx.key);
      assert Naming(ms, p.chat, p.ext) == Naming(rest, p.chat, p.ext) + here;
    }
  }

  lemma EchoNothing(st: State, p: Place, key: KeyId)
    ensures Echoed(st, st, p, [], key)
  {
  }

  lemma EchoCore(before: State, after: State, p: Place, es: seq<Entry>, key: KeyId)
    requires Echoed(before, after, p, es, key)
    ensures CoreAt(after, p) == CoreAt(before, p)
  {
  }

  // ---- the chat rows ----

  function NamingChat(ms: seq<Entry>, chat: string): seq<Entry> {
    if ms == [] then []
    else
      var e := ms[|ms| - 1];
      NamingChat(ms[..|ms| - 1], chat) + if e.chat == chat then [e] else []
  }

  /** The last title any of the entries carries. */
  function LastTitle(title: Option<string>, es: seq<Entry>): Option<string> {
    if es == [] then title
    else if es[|es| - 1].chatTitle.Some? then es[|es| - 1].chatTitle
    else LastTitle(title, es[..|es| - 1])
  }

  function Latest(t: Time, es: seq<Entry>): Time {
    if es == [] then t else Max(Latest(t, es[..|es| - 1]), es[|es| - 1].sentAt)
  }

  /** What a chat row shows: its title and its last activity. */
  function Face(c: Chat): (Option<string>, Time) {
    (c.title, c.lastMessageAt)
  }

  lemma {:induction false} EntriesFace(a: Acc, ctx: Ctx, ms: seq<Entry>, room: ChatKey)
    requires Entries(a, ctx, ms).Folded? && room.source == ctx.src && room in a.st.chats
    ensures var end := Entries(a, ctx, ms).acc.st; var es := NamingChat(ms, room.chat); var was := a.st.chats[room];
      room in end.chats && Face(end.chats[room]) == (LastTitle(was.title, es), Latest(was.lastMessageAt, es))
  {
    if ms != [] {
      var rest, e := ms[..|ms| - 1], ms[|ms| - 1];
      EntriesFace(a, ctx, rest, room);
      var mid := Entries(a, ctx, rest).acc;
      OneEntryFace(mid, ctx, e, room);
      hide OneEntry;
      var es := NamingChat(rest, room.chat);
      assert (es + [e])[..|es|] == es && es + [] == es;
    }
  }

  lemma OneEntryFace(a: Acc, ctx: Ctx, e: Entry, room: ChatKey)
    requires OneEntry(a, ctx, e).Folded? && room in a.st.chats
    ensures var end := OneEntry(a, ctx, e).acc.st; var was := a.st.chats[room];
      room in end.chats &&
      Face(end.chats[room]) == if room == ChatKey(ctx.src, e.chat)
        then (if e.chatTitle.Some? then e.chatTitle else was.title, Max(was.lastMessageAt, e.sentAt)) else Face(was)
  {
    hide Pending, Full;
  }

  /** The entries have nothing left to tell the chat row. */
  ghost predicate Absorbed(c: Chat, es: seq<Entry>) {
    LastTitle(c.title, es) == c.title && forall e :: e in es ==> e.sentAt <= c.lastMessageAt
  }

  lemma OneEntryAbsorbs(a: Acc, ctx: Ctx, e: Entry, room: ChatKey, es: seq<Entry>)
    requires OneEntry(a, ctx, e).Folded? && (room in a.st.chats ==> Absorbed(a.st.chats[room], es))
    requires room !in a.st.chats ==> es == []
    ensures var end := OneEntry(a, ctx, e).acc.st; var fs := es + if room == ChatKey(ctx.src, e.chat) then [e] else [];
      (room in end.chats ==> Absorbed(end.chats[room], fs)) && (room !in end.chats ==> fs == [])
  {
    hide OneEntry, Absorbed;
    OneEntryChats(a, ctx, e);
    AbsorbStep(Get(a.st.chats, room), ctx.channel, e, es);
    assert es + [] == es;
  }

  lemma AbsorbStep(c: Option<Chat>, channel: string, e: Entry, es: seq<Entry>)
    requires if c.Some? then Absorbed(c.value, es) else es == []
    ensures Absorbed(ChatAfter(c, channel, ToIncoming(e)), es + [e])
  {
    var fs := es + [e];
    assert fs[..|fs| - 1] == es && forall x :: x in fs <==> x in es || x == e;
  }

  lemma OneEntryChats(a: Acc, ctx: Ctx, e: Entry)
    requires OneEntry(a, ctx, e).Folded?
    ensures OneEntry(a, ctx, e).acc.st.chats == UpsertChat(a.st, ctx.src, ctx.channel, ToIncoming(e)).chats
  {
    hide Pending, Full, UpsertChat;
  }

  lemma {:induction false} EntriesAbsorb(a: Acc, ctx: Ctx, ms: seq<Entry>, room: ChatKey)
    requires Entries(a, ctx, ms).Folded? && room.source == ctx.src
    ensures var end := Entries(a, ctx, ms).acc.st; var es := NamingChat(ms, room.chat);
      (room in end.chats ==> Absorbed(end.chats[room], es)) && (room !in end.chats ==> es == [])
  {
    hide OneEntry, Absorbed;
    if ms == [] {
      assert room in a.st.chats ==> Absorbed(a.st.chats[room], []) by { AbsorbNothing(a.st, room); }
    } else {
      EntriesAbsorb(a, ctx, ms[..|ms| - 1], room);
      OneEntryAbsorbs(Entries(a, ctx, ms[..|ms| - 1]).acc, ctx, ms[|ms| - 1], room, NamingChat(ms[..|ms| - 1], room.chat));
    }
  }

  lemma AbsorbNothing(st: State, room: ChatKey)
    ensures room in st.chats ==> Absorbed(st.chats[room], [])
  {
  }

  lemma {:induction false} LatestTwice(t: Time, es: seq<Entry>)
    requires forall e :: e in es ==> e.sentAt <= t
    ensures Latest(t, es) == t
  {
    if es != [] {
      assert es[|es| - 1] in es && forall e :: e in es[..|es| - 1] ==> e in es;
      LatestTwice(t, es[..|es| - 1]);
    }
  }

  // ---- the batch ----

  lemma SourceStays(st: State, key: KeyId, b: Batch, now: Time)
    requires Inv(st) && ImportBatch(st, key, b, now).1.Ok?
    ensures var (st1, out) := ImportBatch(st, key, b, now);
      Inv(st1) && FindSource(st1.sources, b.source) == Some(out.value.source) &&
      UpsertSource(st1, key, b.source).1 == out.value.source
    ensures forall k :: UpsertSource(ImportBatch(st, key, b, now).0, k, b.source).1 == ImportBatch(st, key, b, now).1.value.source
  {
    ImportKeeps(st, key, b, now);
    ImportUnfolds(st, key, b, now);
    UpsertSourceKeeps(st, key, b.source);
    var (ctx, f) := Folding(st, key, b, now);
    var st0 := UpsertSource(st, key, b.source).0;
    hide ImportBatch, UpsertSource, Entries, Pending;
    EntriesKeep(Start(st0, Some(Pending(st0.messages))), ctx, b.messages);
    DeletesKeep(f.acc.st, ctx.src, b.deletes, now);
    assert IsPushSource(ImportBatch(st, key, b, now).0.sources[ctx.src], b.source);
    FindsIt(ImportBatch(st, key, b, now).0, ctx.src, b.source);
  }

  lemma FindsIt(st: State, src: SourceId, ref: SourceRef)
    requires SourcesUnique(st.sources) && src in st.sources && IsPushSource(st.sources[src], ref)
    ensures FindSource(st.sources, ref) == Some(src) && forall k :: UpsertSource(st, k, ref).1 == src
  {
  }

  /** What one import leaves behind for its replay. */
  ghost predicate Absorbs(st: State, src: SourceId, b: Batch) {
    && AllSpent(st, src, b.messages)
    && AllBuried(st, src, b.deletes)
    && (forall chat :: ChatKey(src, chat) in st.chats ==> Absorbed(st.chats[ChatKey(src, chat)], NamingChat(b.messages, chat)))
    && (forall chat :: ChatKey(src, chat) !in st.chats ==> NamingChat(b.messages, chat) == [])
  }

  lemma FinishAbsorbs(a: Acc, ctx: Ctx, b: Batch)
    requires Inv(a.st) && AllSpent(a.st, ctx.src, b.messages)
    requires forall chat :: var room := ChatKey(ctx.src, chat); var es := NamingChat(b.messages, chat);
      (room in a.st.chats ==> Absorbed(a.st.chats[room], es)) && (room !in a.st.chats ==> es == [])
    ensures Absorbs(Finish(a, ctx, b).0, ctx.src, b)
  {
    DeletesBury(a.st, ctx.src, b.deletes, ctx.now);
    SpentAfterDeletes(a.st, ctx.src, b.messages, b.deletes, ctx.now);
    DeletesKeep(a.st, ctx.src, b.deletes, ctx.now);
    var st1 := Deletes(a.st, ctx.src, b.deletes, ctx.now).0;
    var end := Finish(a, ctx, b).0;
    assert end.messages == st1.messages && end.chats.Keys == st1.chats.Keys;
    hide Inv, Deletes, Spent, Deletes1;
    assert AllSpent(end, ctx.src, b.messages) by {
      assert forall e :: e in b.messages ==> CoreAt(end, PlaceIn(ctx.src, e)) == CoreAt(st1, PlaceIn(ctx.src, e));
    }
    assert AllBuried(end, ctx.src, b.deletes);
    forall room | room in end.chats ensures Face(end.chats[room]) == Face(st1.chats[room]) {
    }
    hide AllSpent, AllBuried;
  }

  lemma ImportAbsorbs(st: State, key: KeyId, b: Batch, now: Time)
    requires Inv(st) && ImportBatch(st, key, b, now).1.Ok?
    ensures Absorbs(ImportBatch(st, key, b, now).0, ImportBatch(st, key, b, now).1.value.source, b)
  {
    ImportUnfolds(st, key, b, now);
    UpsertSourceKeeps(st, key, b.source);
    var (ctx, f) := Folding(st, key, b, now);
    var st0 := UpsertSource(st, key, b.source).0;
    var a := Start(st0, Some(Pending(st0.messages)));
    hide ImportBatch, UpsertSource, Entries, Pending, AllSpent, Absorbs, Finish, Absorbed;
    EntriesKeep(a, ctx, b.messages);
    EntriesSpend(a, ctx, b.messages);
    forall chat ensures var room := ChatKey(ctx.src, chat); var es := NamingChat(b.messages, chat);
      (room in f.acc.st.chats ==> Absorbed(f.acc.st.chats[room], es)) && (room !in f.acc.st.chats ==> es == [])
    {
      EntriesAbsorb(a, ctx, b.messages, ChatKey(ctx.src, chat));
    }
    FinishAbsorbs(f.acc, ctx, b);
  }

  /** Same rows but for conflict marks, the disagreeing candidates added, the same chat faces, nothing elsewhere, zero counts. */
  ghost predicate EchoOf(st: State, end: State, r: ImportResult, src: SourceId, b: Batch, key: KeyId) {
    && r.source == src && r.inserted == 0 && r.edited == 0 && r.deleted == 0
    && (forall p: Place :: p.source == src ==> Echoed(st, end, p, Naming(b.messages, p.chat, p.ext), key))
    && (forall p: Place :: p.source != src ==> Get(end.messages, p) == Get(st.messages, p))
    && end.chats.Keys == st.chats.Keys
    && (forall room :: room in st.chats && room.source == src ==> Face(end.chats[room]) == Face(st.chats[room]))
    && (forall room :: room in st.chats && room.source != src ==> end.chats[room] == st.chats[room])
  }

  /** Deletes that find everything buried, and the stamps: no message, title or last activity moves. */
  lemma FinishStill(f: Acc, ctx: Ctx, b: Batch)
    requires AllBuried(f.st, ctx.src, b.deletes) && forall room :: room in f.touched ==> room.source == ctx.src
    ensures var (end, r) := Finish(f, ctx, b);
      && end.messages == f.st.messages && end.chats.Keys == f.st.chats.Keys
      && (forall room :: room in end.chats ==> Face(end.chats[room]) == Face(f.st.chats[room]))
      && (forall room :: room in end.chats && room.source != ctx.src ==> end.chats[room] == f.st.chats[room])
      && r.source == ctx.src && r.inserted == f.inserted && r.edited == f.edited && r.deleted == 0
  {
    DeletesIdle(f.st, ctx.src, b.deletes, ctx.now);
    hide AllBuried, Deletes;
  }

  lemma FoldEchoes(a: Acc, ctx: Ctx, b: Batch)
    requires Inv(a.st) && Absorbs(a.st, ctx.src, b) && Entries(a, ctx, b.messages).Folded?
    requires a.inserted == a.edited == 0 && a.touched == {}
    ensures var (end, r) := Finish(Entries(a, ctx, b.messages).acc, ctx, b);
      EchoOf(a.st, end, r, ctx.src, b, ctx.key)
  {
    var f := Entries(a, ctx, b.messages).acc;
    hide Entries, Inv, Absorbed, AllSpent, Naming, Echoed, Deletes;
    forall p: Place | p.source == ctx.src ensures Echoed(a.st, f.st, p, Naming(b.messages, p.chat, p.ext), ctx.key) {
      EntriesEcho(a, ctx, b.messages, p);
    }
    EntriesEcho(a, ctx, b.messages, Place(ctx.src, "", ""));
    forall p: Place | p.source != ctx.src ensures Get(f.st.messages, p) == Get(a.st.messages, p) {
      EntriesElsewhere(a, ctx, b.messages, p);
    }
    BuriedStill(a.st, f.st, ctx, b);
    RoomsStill(a, ctx, b);
    FinishStill(f, ctx, b);
    hide Absorbs, AllBuried, Finish;
    var end := Finish(f, ctx, b).0;
    forall p: Place | p.source == ctx.src ensures Echoed(a.st, end, p, Naming(b.messages, p.chat, p.ext), ctx.key) {
      EchoedSame(a.st, f.st, end, p, Naming(b.messages, p.chat, p.ext), ctx.key);
    }
  }

  lemma EchoedSame(st: State, mid: State, end: State, p: Place, es: seq<Entry>, key: KeyId)
    requires Echoed(st, mid, p, es, key) && end.messages == mid.messages
    ensures Echoed(st, end, p, es, key)
  {
  }

  lemma BuriedStill(st: State, end: State, ctx: Ctx, b: Batch)
    requires AllBuried(st, ctx.src, b.deletes)
    requires forall p: Place :: p.source == ctx.src ==> Echoed(st, end, p, Naming(b.messages, p.chat, p.ext), ctx.key)
    ensures AllBuried(end, ctx.src, b.deletes)
  {
    hide Deletes1, Naming, Disagreements;
    forall d, p | d in b.deletes && p in end.messages && p.source == ctx.src && Deletes1(d, p)
      ensures end.messages[p].row.deletedAt.Some?
    {
      assert Echoed(st, end, p, Naming(b.messages, p.chat, p.ext), ctx.key);
    }
  }

  lemma {:induction false} NamingChatHas(ms: seq<Entry>, e: Entry)
    requires e in ms
    ensures e in NamingChat(ms, e.chat)
  {
    if e in ms[..|ms| - 1] {
      NamingChatHas(ms[..|ms| - 1], e);
    }
  }

  lemma RoomsStill(a: Acc, ctx: Ctx, b: Batch)
    requires Absorbs(a.st, ctx.src, b) && Entries(a, ctx, b.messages).Folded?
    ensures var f := Entries(a, ctx, b.messages).acc;
      && f.st.chats.Keys == a.st.chats.Keys && (forall room :: room in f.touched ==> room in a.touched || room.source == ctx.src)
      && (forall room :: room in a.st.chats && room.source == ctx.src ==> Face(f.st.chats[room]) == Face(a.st.chats[room]))
      && (forall room :: room in a.st.chats && room.source != ctx.src ==> f.st.chats[room] == a.st.chats[room])
  {
    hide Entries;
    forall e | e in b.messages ensures ChatKey(ctx.src, e.chat) in a.st.chats {
      NamingChatHas(b.messages, e);
    }
    var f := Entries(a, ctx, b.messages).acc;
    forall room
      ensures (room in f.st.chats <==> room in a.st.chats) && (room in f.touched ==> room in a.touched || room.source == ctx.src)
      ensures room in a.st.chats && room.source != ctx.src ==> f.st.chats[room] == a.st.chats[room]
    {
      EntriesRooms(a, ctx, b.messages, room);
      if NamesRoom(b.messages, ctx.src, room) {
        assert room == ChatKey(ctx.src, room.chat);
      }
    }
    forall room | room in a.st.chats && room.source == ctx.src ensures Face(f.st.chats[room]) == Face(a.st.chats[room]) {
      EntriesFace(a, ctx, b.messages, room);
      assert room == ChatKey(ctx.src, room.chat);
      LatestTwice(a.st.chats[room].lastMessageAt, NamingChat(b.messages, room.chat));
    }
  }

  lemma EchoFromAbsorbed(st: State, src: SourceId, key: KeyId, b: Batch, now: Time)
    requires Inv(st) && Absorbs(st, src, b) && UpsertSource(st, key, b.source).1 == src
    requires ImportBatch(st, key, b, now).1.Ok?
    ensures var (end, out) := ImportBatch(st, key, b, now); EchoOf(st, end, out.value, src, b, key)
  {
    ImportUnfolds(st, key, b, now);
    UpsertSourceKeeps(st, key, b.source);
    var st0 := UpsertSource(st, key, b.source).0;
    var (ctx, f) := Folding(st, key, b, now);
    assert Absorbs(st0, src, b);
    assert ImportBatch(st, key, b, now) == (Finish(f.acc, ctx, b).0, Ok(Finish(f.acc, ctx, b).1));
    hide ImportBatch, UpsertSource, Entries, Pending, Absorbs, Finish;
    FoldEchoes(Start(st0, Some(Pending(st0.messages))), ctx, b);
    assert EchoOf(st, Finish(f.acc, ctx, b).0, Finish(f.acc, ctx, b).1, src, b, key) by {
      EchoSameTables(st0, st, Finish(f.acc, ctx, b).0, Finish(f.acc, ctx, b).1, src, b, key);
    }
  }

  lemma EchoSameTables(st0: State, st: State, end: State, r: ImportResult, src: SourceId, b: Batch, key: KeyId)
    requires EchoOf(st0, end, r, src, b, key) && st0.messages == st.messages && st0.chats == st.chats
    ensures EchoOf(st, end, r, src, b, key)
  {
    hide Naming, Disagreements;
    forall p: Place | p.source == src ensures Echoed(st, end, p, Naming(b.messages, p.chat, p.ext), key) {
      assert Echoed(st0, end, p, Naming(b.messages, p.chat, p.ext), key);
    }
  }

  /** Replay: the same batch again, by any key, changes no message, no title and no last activity. */
  lemma ReplayChangesNothing(st: State, k1: KeyId, k2: KeyId, b: Batch, t1: Time, t2: Time)
    requires Inv(st) && ImportBatch(st, k1, b, t1).1.Ok?
    requires ImportBatch(ImportBatch(st, k1, b, t1).0, k2, b, t2).1.Ok?
    ensures var (st1, first) := ImportBatch(st, k1, b, t1); var (st2, again) := ImportBatch(st1, k2, b, t2);
      EchoOf(st1, st2, again.value, first.value.source, b, k2)
  {
    ImportAbsorbs(st, k1, b, t1);
    SourceStays(st, k1, b, t1);
    hide ImportBatch, Absorbs, UpsertSource, EchoOf, Inv;
    EchoFromAbsorbed(ImportBatch(st, k1, b, t1).0, ImportBatch(st, k1, b, t1).1.value.source, k2, b, t2);
  }

  ghost predicate SameCandidates(st: State, end: State) {
    st.messages.Keys == end.messages.Keys &&
    forall p :: p in st.messages ==> st.messages[p].cands.Keys == end.messages[p].cands.Keys
  }

  lemma EchoTwice(st1: State, st2: State, r2: ImportResult, st3: State, r3: ImportResult, src: SourceId, b: Batch, key: KeyId)
    requires EchoOf(st1, st2, r2, src, b, key) && EchoOf(st2, st3, r3, src, b, key)
    ensures SameCandidates(st2, st3)
  {
    hide Naming;
    forall p: Place ensures p in st2.messages <==> p in st3.messages
      ensures p in st2.messages ==> st2.messages[p].cands.Keys == st3.messages[p].cands.Keys
    {
      if p.source == src {
        assert Echoed(st1, st2, p, Naming(b.messages, p.chat, p.ext), key);
        assert Echoed(st2, st3, p, Naming(b.messages, p.chat, p.ext), key);
      } else {
        assert Get(st3.messages, p) == Get(st2.messages, p);
      }
    }
  }

  /** From the second import on the candidates are a fixed point. */
  lemma CandidatesSettle(st: State, k1: KeyId, k2: KeyId, b: Batch, t1: Time, t2: Time, t3: Time)
    requires Inv(st) && ImportBatch(st, k1, b, t1).1.Ok?
    requires ImportBatch(ImportBatch(st, k1, b, t1).0, k2, b, t2).1.Ok?
    requires ImportBatch(ImportBatch(ImportBatch(st, k1, b, t1).0, k2, b, t2).0, k2, b, t3).1.Ok?
    ensures var st2 := ImportBatch(ImportBatch(st, k1, b, t1).0, k2, b, t2).0;
      SameCandidates(st2, ImportBatch(st2, k2, b, t3).0)
  {
    var (st1, first) := ImportBatch(st, k1, b, t1);
    var (st2, second) := ImportBatch(st1, k2, b, t2);
    var (st3, third) := ImportBatch(st2, k2, b, t3);
    ImportKeeps(st, k1, b, t1);
    ReplayChangesNothing(st, k1, k2, b, t1, t2);
    ReplayChangesNothing(st1, k2, k2, b, t2, t3);
    assert second.value.source == first.value.source;
    hide ImportBatch, Inv, EchoOf, SameCandidates;
    EchoTwice(st1, st2, second.value, st3, third.value, first.value.source, b, k2);
  }
}
