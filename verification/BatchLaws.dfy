/** What the counters of an accepted batch count, which conflicts it names, and what it leaves in its source row. */
module BatchLaws {
  import opened Prelude
  import opened ArchiveTypes
  import opened Disputes
  import opened Import
  import opened Ingest
  import opened Runs
  import opened Consistency
  import opened Conservation
  import opened ChatActivity
  import LiveLaws
  import opened PushFold

  /** What becomes of one entry, read off the messages it meets. */
  datatype Fate = Inserted | Buried | Repeated | Redated | Opposed

  function FateOf(met: map<Place, Slot>, at: Place, e: Entry): Fate {
    if at !in met then Inserted
    else
      var row := met[at].row;
      if row.deletedAt.Some? then Buried
      else if e.editedAt.Some? then
        if row.editedAt.Some? && e.editedAt.value <= row.editedAt.value then Repeated else Redated
      else if row.text == e.text then Repeated
      else Opposed
  }

  /** The messages entry i meets: those a batch of the entries before it leaves. */
  ghost function Met(st: State, key: KeyId, b: Batch, now: Time, i: nat): map<Place, Slot>
    requires i <= |b.messages|
  {
    ImportBatch(st, key, Batch(b.source, b.messages[..i], []), now).0.messages
  }

  ghost function Fates(st: State, key: KeyId, b: Batch, now: Time, src: SourceId): (fs: seq<Fate>)
    ensures |fs| == |b.messages|
  {
    seq(|b.messages|, i requires 0 <= i < |b.messages| =>
      FateOf(Met(st, key, b, now, i), Place(src, b.messages[i].chat, b.messages[i].ext), b.messages[i]))
  }

  function Positions(fs: seq<Fate>, f: Fate): set<nat> {
    set i: nat | i < |fs| && fs[i] == f
  }

  /** The positions of a set in ascending order. */
  ghost predicate InOrder(order: seq<nat>, of: set<nat>) {
    (forall i, j :: 0 <= i < j < |order| ==> order[i] < order[j]) && forall i :: i in order <==> i in of
  }

  /** The first twenty conflicts, as the pairs the answer carries. */
  ghost predicate NamesFirstTwenty(named: seq<(string, string)>, es: seq<Entry>, order: seq<nat>) {
    && (forall k :: 0 <= k < |order| ==> order[k] < |es|)
    && |named| == (if |order| < 20 then |order| else 20)
    && (forall k :: 0 <= k < |named| ==> named[k] == (es[order[k]].chat, es[order[k]].ext))
  }

  // ---- the fold and its fates ----

  ghost function FoldFates(a: Acc, ctx: Ctx, ms: seq<Entry>): (fs: seq<Fate>)
    requires Entries(a, ctx, ms).Folded?
    ensures |fs| == |ms|
  {
    if ms == [] then []
    else
      var front, e := ms[..|ms| - 1], ms[|ms| - 1];
      FoldFates(a, ctx, front) + [FateOf(Entries(a, ctx, front).acc.st.messages, Place(ctx.src, e.chat, e.ext), e)]
  }

  ghost predicate Counted(a: Acc, fs: seq<Fate>) {
    && a.inserted == |Positions(fs, Inserted)|
    && a.duplicates == |Positions(fs, Buried)| + |Positions(fs, Repeated)| + |Positions(fs, Redated)| + |Positions(fs, Opposed)|
    && a.edited == |Positions(fs, Redated)|
    && a.conflicts == |Positions(fs, Opposed)|
  }

  /** The conflicts an answer names are the first ones, in the order of the batch. */
  ghost predicate Names(named: seq<(string, string)>, es: seq<Entry>, fs: seq<Fate>) {
    exists order :: InOrder(order, Positions(fs, Opposed)) && NamesFirstTwenty(named, es, order)
  }

  lemma PositionsBelow(fs: seq<Fate>, f: Fate)
    ensures forall i :: i in Positions(fs, f) ==> i < |fs|
  {
  }

  lemma PositionsNext(fs: seq<Fate>, g: Fate, f: Fate)
    ensures Positions(fs + [g], f) == Positions(fs, f) + (if f == g then {|fs|} else {})
    ensures |Positions(fs + [g], f)| == |Positions(fs, f)| + (if f == g then 1 else 0)
  {
    PositionsBelow(fs, f);
    forall i: nat ensures i in Positions(fs + [g], f) <==> i in Positions(fs, f) || (f == g && i == |fs|) {
    }
    hide Positions;
    assert Positions(fs + [g], f) == Positions(fs, f) + (if f == g then {|fs|} else {});
  }

  /** One entry moves the counters as its fate says. */
  lemma OneEntryCounts(a: Acc, ctx: Ctx, e: Entry)
    requires OneEntry(a, ctx, e).Folded?
    ensures var b := OneEntry(a, ctx, e).acc; var f := FateOf(a.st.messages, Place(ctx.src, e.chat, e.ext), e);
      && b.inserted == a.inserted + (if f == Inserted then 1 else 0)
      && b.duplicates == a.duplicates + (if f == Inserted then 0 else 1)
      && b.edited == a.edited + (if f == Redated then 1 else 0)
      && b.conflicts == a.conflicts + (if f == Opposed then 1 else 0)
      && b.conflicting == a.conflicting + (if f == Opposed && |a.conflicting| < 20 then [(e.chat, e.ext)] else [])
  {
    hide Capture;
  }

  lemma CountedNext(a: Acc, b: Acc, fs: seq<Fate>, f: Fate)
    requires Counted(a, fs)
    requires b.inserted == a.inserted + (if f == Inserted then 1 else 0)
    requires b.duplicates == a.duplicates + (if f == Inserted then 0 else 1)
    requires b.edited == a.edited + (if f == Redated then 1 else 0)
    requires b.conflicts == a.conflicts + (if f == Opposed then 1 else 0)
    ensures Counted(b, fs + [f])
  {
    PositionsNext(fs, f, Inserted);
    PositionsNext(fs, f, Buried);
    PositionsNext(fs, f, Repeated);
    PositionsNext(fs, f, Redated);
    PositionsNext(fs, f, Opposed);
    hide Positions;
  }

  lemma OrderNext(order: seq<nat>, of: set<nat>, n: nat)
    requires InOrder(order, of) && forall i :: i in of ==> i < n
    ensures InOrder(order + [n], of + {n})
  {
    forall k | 0 <= k < |order| ensures order[k] < n {
      assert order[k] in of;
    }
  }

  lemma TwentyNext(named: seq<(string, string)>, es: seq<Entry>, order: seq<nat>, e: Entry)
    requires NamesFirstTwenty(named, es, order)
    ensures NamesFirstTwenty(named, es + [e], order)
    ensures NamesFirstTwenty(named + (if |named| < 20 then [(e.chat, e.ext)] else []), es + [e], order + [|es|])
  {
  }

  lemma NamesNext(named: seq<(string, string)>, es: seq<Entry>, fs: seq<Fate>, e: Entry, f: Fate)
    requires |fs| == |es| && Names(named, es, fs)
    ensures Names(named + (if f == Opposed && |named| < 20 then [(e.chat, e.ext)] else []), es + [e], fs + [f])
  {
    hide NamesFirstTwenty, InOrder, Positions;
    var order: seq<nat> :| InOrder(order, Positions(fs, Opposed)) && NamesFirstTwenty(named, es, order);
    PositionsNext(fs, f, Opposed);
    TwentyNext(named, es, order, e);
    if f == Opposed {
      PositionsBelow(fs, Opposed);
      OrderNext(order, Positions(fs, Opposed), |fs|);
      assert InOrder(order + [|fs|], Positions(fs + [f], Opposed));
    } else {
      assert named + [] == named;
      assert InOrder(order, Positions(fs + [f], Opposed)) by {
        assert Positions(fs, Opposed) + {} == Positions(fs, Opposed);
      }
    }
  }

  lemma NothingCounted()
    ensures Positions([], Inserted) == Positions([], Buried) == Positions([], Repeated) == Positions([], Redated) == {}
    ensures Positions([], Opposed) == {} && Names([], [], [])
  {
    assert InOrder([], Positions([], Opposed)) && NamesFirstTwenty([], [], []);
  }

  lemma {:induction false} FoldCounts(a: Acc, ctx: Ctx, ms: seq<Entry>)
    requires a.inserted == a.duplicates == a.edited == a.conflicts == 0 && a.conflicting == []
    requires Entries(a, ctx, ms).Folded?
    ensures Counted(Entries(a, ctx, ms).acc, FoldFates(a, ctx, ms))
    ensures Names(Entries(a, ctx, ms).acc.conflicting, ms, FoldFates(a, ctx, ms))
  {
    hide OneEntry, FateOf, Names, Positions;
    if ms == [] {
      NothingCounted();
    } else {
      var front, e := ms[..|ms| - 1], ms[|ms| - 1];
      var before := Entries(a, ctx, front).acc;
      FoldCounts(a, ctx, front);
      hide Counted;
      OneEntryCounts(before, ctx, e);
      var f := FateOf(before.st.messages, Place(ctx.src, e.chat, e.ext), e);
      CountedNext(before, Entries(a, ctx, ms).acc, FoldFates(a, ctx, front), f);
      NamesNext(before.conflicting, front, FoldFates(a, ctx, front), e, f);
      assert front + [e] == ms;
    }
  }

  lemma {:induction false} FoldFatesMeet(a: Acc, ctx: Ctx, ms: seq<Entry>, i: nat)
    requires Entries(a, ctx, ms).Folded? && i < |ms|
    ensures Entries(a, ctx, ms[..i]).Folded?
    ensures FoldFates(a, ctx, ms)[i] ==
      FateOf(Entries(a, ctx, ms[..i]).acc.st.messages, Place(ctx.src, ms[i].chat, ms[i].ext), ms[i])
  {
    hide OneEntry, FateOf;
    if i < |ms| - 1 {
      FoldFatesMeet(a, ctx, ms[..|ms| - 1], i);
      assert ms[..|ms| - 1][..i] == ms[..i];
    }
  }

  lemma MetIsFolded(st: State, key: KeyId, b: Batch, now: Time, i: nat)
    requires ImportBatch(st, key, b, now).1.Ok? && i < |b.messages|
    ensures var f := Folding(st, key, b, now).1; var src := ImportBatch(st, key, b, now).1.value.source;
      f.Folded? && Fates(st, key, b, now, src)[i] == FoldFates(FoldStart(st, key, b), Folding(st, key, b, now).0, b.messages)[i]
  {
    ImportUnfolds(st, key, b, now);
    var (ctx, f) := Folding(st, key, b, now);
    FoldFatesMeet(FoldStart(st, key, b), ctx, b.messages, i);
    hide Entries, Pending, UpsertSource, FateOf, FoldFates;
    var head := Batch(b.source, b.messages[..i], []);
    assert Deletes(Entries(FoldStart(st, key, b), ctx, b.messages[..i]).acc.st, ctx.src, [], now).0 ==
      Entries(FoldStart(st, key, b), ctx, b.messages[..i]).acc.st;
    assert Met(st, key, b, now, i) == Entries(FoldStart(st, key, b), ctx, b.messages[..i]).acc.st.messages;
  }

  ghost function FoldStart(st: State, key: KeyId, b: Batch): Acc {
    var st1 := UpsertSource(st, key, b.source).0;
    Start(st1, Some(Pending(st1.messages)))
  }

  /**
    * An accepted batch counts each entry by what it met: a place without a message, a later date than the live row's,
    * or another text without a date. It names the first twenty of the last kind, in the order of the batch.
    */
  lemma BatchCounts(st: State, key: KeyId, b: Batch, now: Time)
    requires ImportBatch(st, key, b, now).1.Ok?
    ensures var r := ImportBatch(st, key, b, now).1.value; var fs := Fates(st, key, b, now, r.source);
      && r.inserted == |Positions(fs, Inserted)|
      && r.duplicates == |b.messages| - r.inserted
      && r.edited == |Positions(fs, Redated)|
      && r.conflicts == |Positions(fs, Opposed)|
      && Names(r.conflicting, b.messages, fs)
  {
    var r := ImportBatch(st, key, b, now).1.value;
    var fs := Fates(st, key, b, now, r.source);
    ImportUnfolds(st, key, b, now);
    var (ctx, f) := Folding(st, key, b, now);
    forall i | 0 <= i < |fs| ensures fs[i] == FoldFates(FoldStart(st, key, b), ctx, b.messages)[i] {
      MetIsFolded(st, key, b, now, i);
    }
    ImportConserves(st, key, b, now);
    hide Entries, Pending, UpsertSource, FateOf, FoldFates, Fates;
    assert fs == FoldFates(FoldStart(st, key, b), ctx, b.messages);
    FoldCounts(FoldStart(st, key, b), ctx, b.messages);
    hide Positions, Names;
  }

  // ---- the source row ----

  /** The live push source of one channel and account. */
  predicate Feeds(s: Source, ref: SourceRef) {
    s.mode == Push && !s.revoked && s.channel == ref.channel && s.account == Some(ref.account)
  }

  /** A batch is refused unless its key is known, may push and is not revoked; what is refused changes nothing. */
  lemma BatchRefused(st: State, key: KeyId, b: Batch, now: Time)
    ensures var (end, out) := ImportBatch(st, key, b, now);
      && (out == Err(KeyRevoked) <==> key !in st.keys || st.keys[key].revoked || !st.keys[key].canPush)
      && (out.Err? ==> end == st)
  {
    hide Entries, Pending, UpsertSource, Finish;
  }

  lemma UpsertFinds(st: State, key: KeyId, ref: SourceRef)
    ensures var (st1, src) := UpsertSource(st, key, ref);
      && st1.keys == st.keys && src in st1.sources && st1.sources[src].name == Some(ref.name) && Feeds(st1.sources[src], ref)
      && (if (exists s :: s in st.sources && Feeds(st.sources[s], ref))
          then src in st.sources && st1.sources[src] == st.sources[src].(name := Some(ref.name))
          else src == st.serial && st1.sources[src].creator == Some(key))
      && forall s :: s != src ==> Get(st1.sources, s) == Get(st.sources, s)
  {
    forall s ensures s in st.sources ==> (IsPushSource(st.sources[s], ref) <==> Feeds(st.sources[s], ref)) {
    }
    if s :| s in st.sources && Feeds(st.sources[s], ref) {
      assert FindSource(st.sources, ref).Some?;
    }
  }

  /**
    * An accepted batch is received by the live push source of its channel and account, and by a new row that names the
    * key as its creator when there was none. That row takes the batch's label and says when it came, with which key and
    * with how many conflicts; the others are as they were.
    */
  lemma BatchSource(st: State, key: KeyId, b: Batch, now: Time)
    requires ImportBatch(st, key, b, now).1.Ok?
    ensures var (end, out) := ImportBatch(st, key, b, now); var src := out.value.source;
      && src in end.sources && end.keys == st.keys
      && var row := end.sources[src];
      && Feeds(row, b.source) && row.name == Some(b.source.name)
      && row.lastSyncAt == Some(now) && row.lastPushKey == Some(key) && row.lastImportConflicts == out.value.conflicts
      && (if (exists s :: s in st.sources && Feeds(st.sources[s], b.source))
          then src in st.sources && Feeds(st.sources[src], b.source) && row.creator == st.sources[src].creator
          else src == st.serial && row.creator == Some(key))
      && forall s :: s != src ==> Get(end.sources, s) == Get(st.sources, s)
  {
    ImportUnfolds(st, key, b, now);
    var (ctx, f) := Folding(st, key, b, now);
    var (st1, src) := UpsertSource(st, key, b.source);
    UpsertFinds(st, key, b.source);
    EntriesSources(FoldStart(st, key, b), ctx, b.messages);
    DeletesKeepSources(f.acc.st, ctx.src, b.deletes, now);
    hide Entries, Pending, UpsertSource, Deletes, ImportBatch, Feeds;
  }

  // ---- the chats it names ----

  /** Some entry names the chat. */
  ghost predicate NamedIn(ms: seq<Entry>, chat: string) {
    exists e :: e in ms && e.chat == chat
  }

  /** The last title an entry gives the chat, or none. */
  ghost predicate LastTitle(ms: seq<Entry>, chat: string, k: nat) {
    k < |ms| && ms[k].chat == chat && ms[k].chatTitle != None && forall j :: k < j < |ms| && ms[j].chat == chat ==> ms[j].chatTitle == None
  }

  /** A chat after the entries that name it: its newest instant, its last title, and the kind and channel of its first. */
  ghost predicate RoomAfter(was: Option<Chat>, c: Chat, channel: string, ms: seq<Entry>, chat: string) {
    && (forall e :: e in ms && e.chat == chat ==> e.sentAt <= c.lastMessageAt)
    && (was.Some? ==> was.value.lastMessageAt <= c.lastMessageAt && c.kind == was.value.kind && c.channel == was.value.channel)
    && ((was.Some? && c.lastMessageAt == was.value.lastMessageAt) || exists e :: e in ms && e.chat == chat && c.lastMessageAt == e.sentAt)
    && (was.None? ==> c.channel == channel && NamedIn(ms, chat) && exists e :: e in ms && e.chat == chat && c.kind == e.chatKind)
    && (forall k: nat :: LastTitle(ms, chat, k) ==> c.title == ms[k].chatTitle)
    && ((forall e :: e in ms && e.chat == chat ==> e.chatTitle == None) ==> c.title == if was.Some? then was.value.title else None)
  }

  /** One entry, on the chat it names. */
  predicate RoomNext(was: Option<Chat>, c: Chat, channel: string, e: Entry) {
    match was
    case None => c.channel == channel && c.kind == e.chatKind && c.title == e.chatTitle && c.lastMessageAt == e.sentAt
    case Some(d) =>
      && c.channel == d.channel && c.kind == d.kind && c.title == (if e.chatTitle == None then d.title else e.chatTitle)
      && c.lastMessageAt == if e.sentAt > d.lastMessageAt then e.sentAt else d.lastMessageAt
  }

  lemma OneEntryUpserts(a: Acc, ctx: Ctx, e: Entry)
    requires OneEntry(a, ctx, e).Folded?
    ensures OneEntry(a, ctx, e).acc.st.chats == UpsertChat(a.st, ctx.src, ctx.channel, ToIncoming(e)).chats
  {
    hide Pending, Full, ChatAfter;
  }

  lemma OneEntryRoom(a: Acc, ctx: Ctx, e: Entry)
    requires OneEntry(a, ctx, e).Folded?
    ensures var room := ChatKey(ctx.src, e.chat); var chats := OneEntry(a, ctx, e).acc.st.chats;
      room in chats && RoomNext(Get(a.st.chats, room), chats[room], ctx.channel, e)
  {
    OneEntryUpserts(a, ctx, e);
    hide OneEntry;
  }

  lemma RoomLater(was: Option<Chat>, mid: Option<Chat>, c: Chat, channel: string, front: seq<Entry>, e: Entry)
    requires if mid.Some? then RoomAfter(was, mid.value, channel, front, e.chat) else was.None? && !NamedIn(front, e.chat)
    requires RoomNext(mid, c, channel, e)
    ensures RoomAfter(was, c, channel, front + [e], e.chat)
  {
    var ms := front + [e];
    assert ms[|front|] == e;
    assert forall x :: x in ms <==> x in front || x == e;
    TitleLater(front, e);
  }

  lemma TitleLater(front: seq<Entry>, e: Entry)
    ensures forall k: nat :: LastTitle(front + [e], e.chat, k) ==>
      if e.chatTitle != None then k == |front| else k < |front| && LastTitle(front, e.chat, k) && (front + [e])[k] == front[k]
  {
    var ms := front + [e];
    assert ms[|front|] == e;
    forall k: nat | LastTitle(ms, e.chat, k)
      ensures if e.chatTitle != None then k == |front| else k < |front| && LastTitle(front, e.chat, k) && ms[k] == front[k]
    {
      assert forall j :: 0 <= j < |front| ==> ms[j] == front[j];
    }
  }

  lemma RoomOther(was: Option<Chat>, c: Chat, channel: string, front: seq<Entry>, chat: string, e: Entry)
    requires RoomAfter(was, c, channel, front, chat) && e.chat != chat
    ensures RoomAfter(was, c, channel, front + [e], chat)
  {
    var ms := front + [e];
    assert forall x :: x in ms <==> x in front || x == e;
    forall k: nat | LastTitle(ms, chat, k) ensures LastTitle(front, chat, k) && ms[k] == front[k] {
      assert forall j :: 0 <= j < |front| ==> ms[j] == front[j];
      assert ms[|front|] == e;
    }
  }

  lemma {:induction false} EntriesRoomAfter(a: Acc, ctx: Ctx, ms: seq<Entry>, chat: string)
    requires Entries(a, ctx, ms).Folded?
    ensures var room := ChatKey(ctx.src, chat); var chats := Entries(a, ctx, ms).acc.st.chats;
      if room in chats then RoomAfter(Get(a.st.chats, room), chats[room], ctx.channel, ms, chat)
      else room !in a.st.chats && !NamedIn(ms, chat)
  {
    hide OneEntry, RoomAfter, RoomNext;
    var room := ChatKey(ctx.src, chat);
    if ms == [] {
      if room in a.st.chats {
        RoomUntouched(a.st.chats[room], ctx.channel, chat);
      }
    } else {
      var front, e := ms[..|ms| - 1], ms[|ms| - 1];
      var mid := Entries(a, ctx, front).acc;
      assert front + [e] == ms && forall x :: x in ms <==> x in front || x == e;
      EntriesRoomAfter(a, ctx, front, chat);
      OneEntryRooms(mid, ctx, e, room);
      if e.chat == chat {
        OneEntryRoom(mid, ctx, e);
        RoomLater(Get(a.st.chats, room), Get(mid.st.chats, room), Entries(a, ctx, ms).acc.st.chats[room], ctx.channel, front, e);
      } else if room in mid.st.chats {
        RoomOther(Get(a.st.chats, room), mid.st.chats[room], ctx.channel, front, chat, e);
      }
    }
  }

  lemma RoomUntouched(c: Chat, channel: string, chat: string)
    ensures RoomAfter(Some(c), c, channel, [], chat)
  {
  }

  /**
    * A chat of the batch's source afterwards: its activity is the latest instant it had or an entry brings, its title the
    * last one an entry gives it, and its kind and channel are those it was first stored with.
    */
  lemma BatchRooms(st: State, key: KeyId, b: Batch, now: Time, chat: string)
    requires ImportBatch(st, key, b, now).1.Ok?
    ensures var (end, out) := ImportBatch(st, key, b, now); var room := ChatKey(out.value.source, chat);
      room in end.chats ==> RoomAfter(Get(st.chats, room), end.chats[room], b.source.channel, b.messages, chat)
  {
    ImportUnfolds(st, key, b, now);
    var (ctx, f) := Folding(st, key, b, now);
    var room := ChatKey(ctx.src, chat);
    UpsertKeepsSources(st, key, b.source);
    EntriesRoomAfter(FoldStart(st, key, b), ctx, b.messages, chat);
    DeletesKeepSources(f.acc.st, ctx.src, b.deletes, now);
    var end := ImportBatch(st, key, b, now).0;
    hide Entries, Pending, UpsertSource, Deletes, ImportBatch, RoomAfter;
    if room in end.chats {
      StampedRoom(Get(st.chats, room), f.acc.st.chats[room], end.chats[room], b.source.channel, b.messages, chat);
    }
  }

  lemma StampedRoom(was: Option<Chat>, c: Chat, d: Chat, channel: string, ms: seq<Entry>, chat: string)
    requires RoomAfter(was, c, channel, ms, chat) && d == c.(lastPushAt := d.lastPushAt, lastPushKey := d.lastPushKey)
    ensures RoomAfter(was, d, channel, ms, chat)
  {
  }

  // ---- the messages it deletes ----

  /** A delete of the batch reaches the message: by its chat, or by its id alone in the common id space. */
  ghost predicate Reaches(ds: seq<Deletion>, p: Place) {
    exists d :: d in ds && d.ext == p.ext && LiveLaws.InReach(DeleteRef(Some(d.chat), d.ext, None), p.chat)
  }

  /** The message is live, and in the source. */
  predicate Undeleted(messages: map<Place, Slot>, src: SourceId, p: Place) {
    p in messages && p.source == src && messages[p].row.deletedAt == None
  }

  /** Buried with its text, its dispute gone. */
  predicate BuriedAt(s: Slot, t: Slot, now: Time) {
    t.cands == map[] && t.row == s.row.(deletedAt := Some(now), conflictedAt := None, revision := s.row.revision + 1)
  }

  lemma OneDelete(st: State, src: SourceId, d: Deletion, now: Time, p: Place)
    requires p in st.messages && p.Room() in st.chats
    ensures var end := Delete(st, src, DeleteRef(Some(d.chat), d.ext, None), now).0;
      p in end.messages &&
      if Undeleted(st.messages, src, p) && Reaches([d], p) then BuriedAt(st.messages[p], end.messages[p], now)
      else end.messages[p] == st.messages[p]
  {
    LiveLaws.CommonIffReach(p.chat);
    hide IsCommonChat, LiveLaws.Spells;
    assert d in [d];
  }

  lemma {:induction false} DeletesReach(st: State, src: SourceId, ds: seq<Deletion>, now: Time, p: Place)
    requires p in st.messages && p.Room() in st.chats
    ensures var end := Deletes(st, src, ds, now).0;
      p in end.messages &&
      if Undeleted(st.messages, src, p) && Reaches(ds, p) then BuriedAt(st.messages[p], end.messages[p], now)
      else end.messages[p] == st.messages[p]
  {
    hide IsCommonChat, Delete, LiveLaws.InReach;
    if ds != [] {
      var front, d := ds[..|ds| - 1], ds[|ds| - 1];
      assert forall x :: x in ds <==> x in front || x == d;
      assert Reaches(ds, p) <==> Reaches(front, p) || Reaches([d], p);
      hide Reaches;
      DeletesReach(st, src, front, now, p);
      DeletesKeepSources(st, src, front, now);
      OneDelete(Deletes(st, src, front, now).0, src, d, now, p);
    }
  }

  /** The archive a batch leaves without its deletes. */
  ghost function BeforeDeletes(st: State, key: KeyId, b: Batch, now: Time): State {
    ImportBatch(st, key, b.(deletes := []), now).0
  }

  ghost function Reached(messages: map<Place, Slot>, src: SourceId, ds: seq<Deletion>): set<Place> {
    set p | p in messages && Undeleted(messages, src, p) && Reaches(ds, p)
  }

  lemma BeforeDeletesIs(st: State, key: KeyId, b: Batch, now: Time)
    requires ImportBatch(st, key, b, now).1.Ok?
    ensures var (ctx, f) := Folding(st, key, b, now); var mid := BeforeDeletes(st, key, b, now);
      && f.Folded? && mid.messages == f.acc.st.messages && mid.chats.Keys == f.acc.st.chats.Keys
      && ImportBatch(st, key, b, now).0.messages == Deletes(f.acc.st, ctx.src, b.deletes, now).0.messages
    ensures var out := ImportBatch(st, key, b.(deletes := []), now).1;
      && out.Ok? && out.value.source == ImportBatch(st, key, b, now).1.value.source
      && out.value.inserted == ImportBatch(st, key, b, now).1.value.inserted && out.value.deleted == 0
  {
    hide Entries, Pending, UpsertSource;
  }

  /**
    * After the entries, the deletes of an accepted batch bury exactly the live messages of its source that they reach,
    * each with its text; every other message stays as the entries left it, and the burials are counted.
    */
  lemma BatchBuries(st: State, key: KeyId, b: Batch, now: Time)
    requires Inv(st) && ImportBatch(st, key, b, now).1.Ok?
    ensures var (end, out) := ImportBatch(st, key, b, now); var mid := BeforeDeletes(st, key, b, now); var src := out.value.source;
      && end.messages.Keys == mid.messages.Keys
      && (forall p :: p in mid.messages ==>
            if Undeleted(mid.messages, src, p) && Reaches(b.deletes, p) then BuriedAt(mid.messages[p], end.messages[p], now)
            else end.messages[p] == mid.messages[p])
      && out.value.deleted == |Reached(mid.messages, src, b.deletes)|
  {
    var (end, out) := ImportBatch(st, key, b, now);
    var mid := BeforeDeletes(st, key, b, now);
    var (ctx, f) := Folding(st, key, b, now);
    ImportUnfolds(st, key, b, now);
    BeforeDeletesIs(st, key, b, now);
    ImportKeeps(st, key, b.(deletes := []), now);
    DeletesKeepPlaces(f.acc.st, ctx.src, b.deletes, now);
    hide ImportBatch, Entries, Pending, UpsertSource, Deletes, Reaches, Undeleted, BuriedAt, SlotsOk, SourcesUnique, WithinCapacity;
    forall p | p in mid.messages
      ensures p in end.messages &&
        if Undeleted(mid.messages, out.value.source, p) && Reaches(b.deletes, p) then BuriedAt(mid.messages[p], end.messages[p], now)
        else end.messages[p] == mid.messages[p]
    {
      DeletesReach(f.acc.st, ctx.src, b.deletes, now, p);
    }
    BurialsCount(mid.messages, end.messages, out.value.source, b.deletes, now);
    ImportConserves(st, key, b, now);
    ImportConserves(st, key, b.(deletes := []), now);
  }

  lemma BurialsCount(mid: map<Place, Slot>, end: map<Place, Slot>, src: SourceId, ds: seq<Deletion>, now: Time)
    requires end.Keys == mid.Keys
    requires forall p :: p in mid ==>
      if Undeleted(mid, src, p) && Reaches(ds, p) then BuriedAt(mid[p], end[p], now) else end[p] == mid[p]
    ensures |LiveIn(mid, src)| == |LiveIn(end, src)| + |Reached(mid, src, ds)|
  {
    hide Reaches;
    assert forall p :: p in mid <==> p in end;
    assert LiveIn(mid, src) == LiveIn(end, src) + Reached(mid, src, ds);
  }

  lemma {:induction false} DeletesKeepPlaces(st: State, src: SourceId, ds: seq<Deletion>, now: Time)
    ensures Deletes(st, src, ds, now).0.messages.Keys == st.messages.Keys
  {
    if ds != [] {
      DeletesKeepPlaces(st, src, ds[..|ds| - 1], now);
    }
  }

  // ---- the messages it brings ----

  predicate NamesPlace(e: Entry, p: Place) {
    e.chat == p.chat && e.ext == p.ext
  }

  /** The immutable columns, as the entry has them; without a payload of its own it gets the two-field stand-in. */
  predicate BroughtBy(r: Row, e: Entry, key: KeyId) {
    && r.pushKey == Some(key) && r.body.sender == e.sender && r.body.senderName == e.senderName && r.body.fromOwner == e.fromOwner
    && r.body.sentAt == e.sentAt && r.body.kind == e.kind && r.body.replyTo == e.replyTo && !r.body.hasMedia
    && r.body.raw == if e.raw == None then StandIn(e.ext, e.sentAt) else e.raw.value
  }

  lemma OneEntryBrings(a: Acc, ctx: Ctx, e: Entry)
    requires OneEntry(a, ctx, e).Folded?
    ensures var p := Place(ctx.src, e.chat, e.ext); var m := OneEntry(a, ctx, e).acc.st.messages;
      p in m && (p !in a.st.messages ==> BroughtBy(m[p].row, e, ctx.key))
  {
    hide Pending, Full;
  }

  lemma OneEntryKeeps(a: Acc, ctx: Ctx, e: Entry, p: Place)
    requires OneEntry(a, ctx, e).Folded? && p in a.st.messages
    ensures var m := OneEntry(a, ctx, e).acc.st.messages;
      p in m && m[p].row.body == a.st.messages[p].row.body && m[p].row.pushKey == a.st.messages[p].row.pushKey
  {
    hide Pending, Full;
  }

  lemma {:induction false} EntriesBring(a: Acc, ctx: Ctx, ms: seq<Entry>, p: Place, i: nat)
    requires Entries(a, ctx, ms).Folded? && p.source == ctx.src && p !in a.st.messages
    requires forall j :: 0 <= j < i && j < |ms| ==> !NamesPlace(ms[j], p)
    ensures var m := Entries(a, ctx, ms).acc.st.messages;
      if i < |ms| && NamesPlace(ms[i], p) then p in m && BroughtBy(m[p].row, ms[i], ctx.key) else i >= |ms| ==> p !in m
  {
    hide OneEntry, BroughtBy;
    if ms != [] {
      var front, e := ms[..|ms| - 1], ms[|ms| - 1];
      var mid := Entries(a, ctx, front).acc;
      EntriesBring(a, ctx, front, p, i);
      OneEntryBrings(mid, ctx, e);
      if p in mid.st.messages {
        OneEntryKeeps(mid, ctx, e, p);
        KeptBringing(mid.st.messages[p].row, Entries(a, ctx, ms).acc.st.messages[p].row);
      } else if !NamesPlace(e, p) {
        OneEntryElsewhere(mid, ctx, e, p);
      }
    }
  }

  lemma KeptBringing(r: Row, t: Row)
    requires t.body == r.body && t.pushKey == r.pushKey
    ensures forall e, key :: BroughtBy(r, e, key) ==> BroughtBy(t, e, key)
  {
  }

  /** A place without a message takes its columns from the first entry that names it, whatever else the batch says of it. */
  lemma BatchBrings(st: State, key: KeyId, b: Batch, now: Time, p: Place, i: nat)
    requires Inv(st) && ImportBatch(st, key, b, now).1.Ok? && p.source == ImportBatch(st, key, b, now).1.value.source
    requires p !in st.messages && i < |b.messages| && NamesPlace(b.messages[i], p)
    requires forall j :: 0 <= j < i ==> !NamesPlace(b.messages[j], p)
    ensures var end := ImportBatch(st, key, b, now).0; p in end.messages && BroughtBy(end.messages[p].row, b.messages[i], key)
  {
    ImportUnfolds(st, key, b, now);
    var (ctx, f) := Folding(st, key, b, now);
    assert FoldStart(st, key, b).st.messages == st.messages;
    EntriesBring(FoldStart(st, key, b), ctx, b.messages, p, i);
    BatchBuries(st, key, b, now);
    BeforeDeletesIs(st, key, b, now);
    hide ImportBatch, Entries, Pending, UpsertSource, Deletes, Inv, Reaches, Undeleted, Reached, BroughtBy;
    KeptBringing(f.acc.st.messages[p].row, ImportBatch(st, key, b, now).0.messages[p].row);
  }
}
