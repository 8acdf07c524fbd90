/** The stored tables behind the archive's state: messages and message_disputes apart, joined by message. */
module Tables {
  import opened Prelude
  import opened ArchiveTypes
  import opened Ingest
  import opened Disputes

  /** The message_disputes rows of one message. */
  function CandsOf(disputes: map<Ref, Cand>, p: Place): map<CandKey, Cand> {
    map r | r in disputes && r.at == p :: r.key := disputes[r]
  }

  /** The messages table joined with message_disputes. */
  function Join(rows: map<Place, Row>, disputes: map<Ref, Cand>): map<Place, Slot> {
    map p | p in rows :: Slot(rows[p], CandsOf(disputes, p))
  }

  /** message_disputes.message_id references messages.id. */
  predicate NoOrphans(rows: map<Place, Row>, disputes: map<Ref, Cand>) {
    forall r :: r in disputes ==> r.at in rows
  }

  function Without(disputes: map<Ref, Cand>, gone: set<Place>): map<Ref, Cand> {
    map r | r in disputes && r.at !in gone :: disputes[r]
  }

  lemma CandsAre(disputes: map<Ref, Cand>, p: Place)
    ensures forall k :: k in CandsOf(disputes, p) <==> Ref(p, k) in disputes
    ensures forall k :: k in CandsOf(disputes, p) ==> CandsOf(disputes, p)[k] == disputes[Ref(p, k)]
  {
    forall k | Ref(p, k) in disputes ensures k in CandsOf(disputes, p) && CandsOf(disputes, p)[k] == disputes[Ref(p, k)] {
      assert Ref(p, k).key == k;
    }
  }

  lemma JoinAt(rows: map<Place, Row>, disputes: map<Ref, Cand>, p: Place)
    ensures p in Join(rows, disputes) <==> p in rows
    ensures p in rows ==> Join(rows, disputes)[p] == Slot(rows[p], CandsOf(disputes, p))
  {
  }

  lemma JoinPutRow(rows: map<Place, Row>, disputes: map<Ref, Cand>, p: Place, row: Row)
    ensures Join(rows[p := row], disputes) == Join(rows, disputes)[p := Slot(row, CandsOf(disputes, p))]
  {
    hide CandsOf;
  }

  lemma JoinClear(rows: map<Place, Row>, disputes: map<Ref, Cand>, p: Place)
    requires p in rows
    ensures Join(rows, Without(disputes, {p})) == Join(rows, disputes)[p := Slot(rows[p], map[])]
  {
    var left := Without(disputes, {p});
    forall q | q in rows ensures CandsOf(left, q) == if q == p then map[] else CandsOf(disputes, q) {
      CandsAre(left, q);
      CandsAre(disputes, q);
      hide CandsOf;
      assert q == p ==> CandsOf(left, q) == map[];
    }
  }

  lemma JoinPutCand(rows: map<Place, Row>, disputes: map<Ref, Cand>, p: Place, k: CandKey, c: Cand)
    requires p in rows
    ensures Join(rows, disputes[Ref(p, k) := c]) == Join(rows, disputes)[p := Slot(rows[p], CandsOf(disputes, p)[k := c])]
  {
    var more := disputes[Ref(p, k) := c];
    forall q | q in rows ensures CandsOf(more, q) == if q == p then CandsOf(disputes, p)[k := c] else CandsOf(disputes, q) {
      CandsPut(disputes, p, k, c, q);
    }
    hide CandsOf;
  }

  lemma CandsPut(disputes: map<Ref, Cand>, p: Place, k: CandKey, c: Cand, q: Place)
    ensures CandsOf(disputes[Ref(p, k) := c], q) == if q == p then CandsOf(disputes, p)[k := c] else CandsOf(disputes, q)
  {
    CandsAre(disputes[Ref(p, k) := c], q);
    CandsAre(disputes, q);
    hide CandsOf;
  }

  lemma NewcomerUndisputed(rows: map<Place, Row>, disputes: map<Ref, Cand>, p: Place)
    requires NoOrphans(rows, disputes) && p !in rows
    ensures CandsOf(disputes, p) == map[]
  {
  }

  /** Counting the joined candidates is counting the disputes table. */
  lemma RefsAreRows(rows: map<Place, Row>, disputes: map<Ref, Cand>)
    requires NoOrphans(rows, disputes)
    ensures Refs(Join(rows, disputes)) == disputes.Keys
  {
    forall r ensures r in Refs(Join(rows, disputes)) <==> r in disputes {
      CandsAre(disputes, r.at);
      assert r == Ref(r.at, r.key);
    }
  }

  // ---- deleting chat by chat ----

  function BuriedIn(messages: map<Place, Slot>, hits: set<Place>, now: Time): map<Place, Slot> {
    map p | p in messages :: if p in hits then Tombstone(messages[p], now) else messages[p]
  }

  function HitsIn(st: State, src: SourceId, ref: DeleteRef, rooms: set<ChatKey>): set<Place> {
    set p | p in st.messages && DeleteHits(st, src, ref, p) && p.Room() in rooms
  }

  lemma HitsNowhere(st: State, src: SourceId, ref: DeleteRef, now: Time)
    ensures HitsIn(st, src, ref, {}) == {} && BuriedIn(st.messages, {}, now) == st.messages
  {
  }

  /** The one place of a chat that a delete can hit: the rows before it are as they were. */
  lemma HitsOneRoom(st: State, src: SourceId, ref: DeleteRef, now: Time, done: set<ChatKey>, room: ChatKey)
    requires room !in done && room in st.chats && room.source == src && DeleteTargets(ref, room.chat)
    ensures var p := Place(room.source, room.chat, ref.ext); var was := HitsIn(st, src, ref, done);
      var here := BuriedIn(st.messages, was, now);
      (p in here <==> p in st.messages) && (p in here ==> here[p] == st.messages[p]) &&
      if p in here && here[p].row.deletedAt.None? && AuthoredBy(ref.actor, here[p].row.body) then
        |HitsIn(st, src, ref, done + {room})| == |was| + 1 &&
        BuriedIn(st.messages, HitsIn(st, src, ref, done + {room}), now) == here[p := Tombstone(here[p], now)]
      else HitsIn(st, src, ref, done + {room}) == was
  {
    hide AuthoredBy, DeleteTargets, Tombstone;
    var p := Place(room.source, room.chat, ref.ext);
    var was, next := HitsIn(st, src, ref, done), HitsIn(st, src, ref, done + {room});
    assert p.Room() == room && forall q: Place :: q.Room() == room && q.ext == ref.ext ==> q == p;
    if p in st.messages && st.messages[p].row.deletedAt.None? && AuthoredBy(ref.actor, st.messages[p].row.body) {
      assert DeleteHits(st, src, ref, p);
      assert next == was + {p};
    } else {
      assert next == was;
    }
  }

  lemma HitsEverywhere(st: State, src: SourceId, ref: DeleteRef, now: Time, rooms: set<ChatKey>)
    requires rooms == set room | room in st.chats && room.source == src && DeleteTargets(ref, room.chat)
    ensures Delete(st, src, ref, now) ==
      (st.(messages := BuriedIn(st.messages, HitsIn(st, src, ref, rooms), now)), |HitsIn(st, src, ref, rooms)|)
  {
    hide AuthoredBy, DeleteTargets, Tombstone;
    var hits := HitsIn(st, src, ref, rooms);
    assert hits == set p | p in st.messages && DeleteHits(st, src, ref, p);
    assert Delete(st, src, ref, now).0.messages == BuriedIn(st.messages, hits, now);
  }

  // ---- removing rows ----

  /** Deleting message rows, and by cascade their candidates. */
  lemma JoinCascade(rows: map<Place, Row>, disputes: map<Ref, Cand>, gone: set<Place>)
    requires NoOrphans(rows, disputes)
    ensures NoOrphans(rows - gone, Without(disputes, gone))
    ensures Join(rows - gone, Without(disputes, gone)) == Join(rows, disputes) - gone
  {
    var left := Without(disputes, gone);
    forall p | p in rows && p !in gone ensures CandsOf(left, p) == CandsOf(disputes, p) {
      CandsAre(left, p);
      CandsAre(disputes, p);
      hide CandsOf;
    }
    hide CandsOf;
  }

  function RowsOf(rows: map<Place, Row>, src: SourceId): set<Place> {
    set p | p in rows && p.source == src
  }

  function RoomsOf(chats: map<ChatKey, Chat>, src: SourceId): set<ChatKey> {
    set c | c in chats && c.source == src
  }

  lemma DropIsCascade(st: State, rows: map<Place, Row>, disputes: map<Ref, Cand>, src: SourceId)
    requires st.messages == Join(rows, disputes)
    ensures DropSources(st, {src}) ==
      st.(sources := st.sources - {src}, chats := st.chats - RoomsOf(st.chats, src), messages := st.messages - RowsOf(rows, src))
  {
    hide CandsOf;
    var end := DropSources(st, {src});
    assert end.sources == st.sources - {src};
    assert end.chats == st.chats - RoomsOf(st.chats, src);
    assert end.messages == st.messages - RowsOf(rows, src);
  }

  // ---- withdrawing one key's candidates ----

  function NotBy(disputes: map<Ref, Cand>, key: KeyId): map<Ref, Cand> {
    map r | r in disputes && r.key.key != key :: disputes[r]
  }

  /** The messages one key had a candidate on. */
  function Targets(disputes: map<Ref, Cand>, key: KeyId): set<Place> {
    set r | r in disputes && r.key.key == key :: r.at
  }

  /** Halfway: the key's candidates are gone, and the messages in `done` have been settled. */
  function Halfway(messages: map<Place, Slot>, key: KeyId, done: set<Place>): map<Place, Slot> {
    map p | p in messages :: if p in done then WithoutKey(messages[p], key) else Slot(messages[p].row, OfOthers(messages[p].cands, key))
  }

  lemma CandsNotBy(disputes: map<Ref, Cand>, key: KeyId, p: Place)
    ensures CandsOf(NotBy(disputes, key), p) == OfOthers(CandsOf(disputes, p), key)
  {
    CandsAre(NotBy(disputes, key), p);
    CandsAre(disputes, p);
    hide CandsOf;
  }

  lemma WithdrawStart(rows: map<Place, Row>, disputes: map<Ref, Cand>, key: KeyId)
    requires NoOrphans(rows, disputes)
    ensures NoOrphans(rows, NotBy(disputes, key))
    ensures Join(rows, NotBy(disputes, key)) == Halfway(Join(rows, disputes), key, {})
  {
    forall p ensures CandsOf(NotBy(disputes, key), p) == OfOthers(CandsOf(disputes, p), key) {
      CandsNotBy(disputes, key, p);
    }
    hide CandsOf, OfOthers;
  }

  lemma WithdrawOne(messages: map<Place, Slot>, key: KeyId, done: set<Place>, p: Place)
    requires p in messages && p !in done
    ensures var half := Halfway(messages, key, done);
      p in half && half[p] == Slot(messages[p].row, OfOthers(messages[p].cands, key)) &&
      Halfway(messages, key, done + {p}) == half[p := WithoutKey(messages[p], key)]
  {
    hide WithoutKey, OfOthers;
  }

  /** A message without a single candidate is no longer disputed. */
  function Unmarked(s: Slot): Slot {
    if s.cands == map[] then Slot(s.row.(conflictedAt := None, revision := s.row.revision + 1), s.cands) else s
  }

  lemma TargetSettles(rows: map<Place, Row>, disputes: map<Ref, Cand>, key: KeyId, p: Place)
    requires p in rows && p in Targets(disputes, key)
    ensures var s := Join(rows, disputes)[p]; WithoutKey(s, key) == Unmarked(Slot(s.row, OfOthers(s.cands, key)))
  {
    var r :| r in disputes && r.key.key == key && r.at == p;
    CandsAre(disputes, p);
    hide CandsOf;
    assert r == Ref(p, r.key);
    assert r.key in Join(rows, disputes)[p].cands;
  }

  lemma WithdrawEnd(rows: map<Place, Row>, disputes: map<Ref, Cand>, key: KeyId)
    ensures var messages := Join(rows, disputes);
      Halfway(messages, key, Targets(disputes, key)) == map p | p in messages :: WithoutKey(messages[p], key)
  {
    var messages := Join(rows, disputes);
    forall p | p in messages && p !in Targets(disputes, key)
      ensures WithoutKey(messages[p], key) == Slot(messages[p].row, OfOthers(messages[p].cands, key))
    {
      CandsAre(disputes, p);
      hide CandsOf;
      assert forall k :: k in messages[p].cands ==> Ref(p, k) in disputes;
      assert OfOthers(messages[p].cands, key) == messages[p].cands;
    }
    hide CandsOf, WithoutKey, OfOthers;
  }

  lemma PurgedAre(messages: map<Place, Slot>, key: KeyId)
    ensures PurgedMessages(messages, key) == (map p | p in messages :: WithoutKey(messages[p], key)) - PurgedPlaces(messages, key)
  {
    hide WithoutKey;
  }

  // ---- sweeping emptied sources ----

  lemma DropMore(st: State, gone: set<SourceId>, src: SourceId)
    ensures DropSources(DropSources(st, gone), {src}) == DropSources(st, gone + {src})
  {
  }

  lemma DropEmpty(st: State, gone: set<SourceId>)
    requires forall s :: s in gone ==> Emptied(st.messages, s)
    ensures DropSources(st, gone).messages == st.messages
  {
  }

  function EmptiedOf(messages: map<Place, Slot>, some: set<SourceId>): set<SourceId> {
    set s | s in some && Emptied(messages, s)
  }

  lemma SweepNothing(st: State)
    ensures EmptiedOf(st.messages, {}) == {} && SweptOf(st, {}) == st
  {
    assert PushOnly(st.sources, {}) == {};
    var end := DropSources(st, {});
    assert end.sources == st.sources && end.chats == st.chats && end.messages == st.messages;
  }

  /** The tables after the sweep of some of the touched sources. */
  function SweptOf(st: State, done: set<SourceId>): State {
    DropSources(st, PushOnly(st.sources, EmptiedOf(st.messages, done)))
  }

  /** What went before left every message in place. */
  lemma SweptKeepsMessages(st: State, done: set<SourceId>)
    ensures SweptOf(st, done).messages == st.messages
    ensures forall s :: s !in done ==> Get(SweptOf(st, done).sources, s) == Get(st.sources, s)
  {
    DropEmpty(st, PushOnly(st.sources, EmptiedOf(st.messages, done)));
  }

  lemma SweepSkips(st: State, done: set<SourceId>, src: SourceId)
    requires !Emptied(st.messages, src)
    ensures EmptiedOf(st.messages, done + {src}) == EmptiedOf(st.messages, done)
    ensures SweptOf(st, done + {src}) == SweptOf(st, done)
  {
    assert EmptiedOf(st.messages, done + {src}) == EmptiedOf(st.messages, done);
  }

  lemma SweepOne(st: State, done: set<SourceId>, src: SourceId)
    requires src !in done && Emptied(st.messages, src)
    ensures |EmptiedOf(st.messages, done + {src})| == |EmptiedOf(st.messages, done)| + 1
    ensures SweptOf(st, done + {src}) ==
      if src in st.sources && st.sources[src].mode == Push then DropSources(SweptOf(st, done), {src}) else SweptOf(st, done)
  {
    hide DropSources, Emptied, PushOnly;
    var was := EmptiedOf(st.messages, done);
    EmptiedOne(st.messages, done, src);
    PushOnlyOne(st.sources, was, src);
    DropMore(st, PushOnly(st.sources, was), src);
    hide EmptiedOf;
  }

  lemma EmptiedOne(messages: map<Place, Slot>, done: set<SourceId>, src: SourceId)
    requires src !in done && Emptied(messages, src)
    ensures EmptiedOf(messages, done + {src}) == EmptiedOf(messages, done) + {src}
    ensures |EmptiedOf(messages, done + {src})| == |EmptiedOf(messages, done)| + 1
  {
    hide Emptied;
    assert EmptiedOf(messages, done + {src}) == EmptiedOf(messages, done) + {src};
  }

  lemma PushOnlyOne(sources: map<SourceId, Source>, some: set<SourceId>, src: SourceId)
    ensures PushOnly(sources, some + {src}) ==
      if src in sources && sources[src].mode == Push then PushOnly(sources, some) + {src} else PushOnly(sources, some)
  {
  }

  lemma EmptiedRows(rows: map<Place, Row>, disputes: map<Ref, Cand>, src: SourceId)
    ensures Emptied(Join(rows, disputes), src) <==> forall p :: p in rows ==> p.source != src
  {
    hide CandsOf;
  }

  lemma PurgedUnmoved(messages: map<Place, Slot>, key: KeyId)
    ensures PurgedPlaces(map p | p in messages :: WithoutKey(messages[p], key), key) == PurgedPlaces(messages, key)
  {
    hide OfOthers;
  }

  lemma TargetsAreRows(rows: map<Place, Row>, disputes: map<Ref, Cand>, key: KeyId)
    requires NoOrphans(rows, disputes)
    ensures forall p :: p in Targets(disputes, key) ==> p in rows
  {
  }

  lemma PurgedAreRows(rows: map<Place, Row>, disputes: map<Ref, Cand>, key: KeyId)
    ensures PurgedPlaces(Join(rows, disputes), key) == set p | p in rows && rows[p].pushKey == Some(key) && rows[p].deletedAt.None?
  {
    hide CandsOf;
  }
}
