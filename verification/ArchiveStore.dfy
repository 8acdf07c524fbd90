/** The archive's tables, changed statement by statement as the services do; every transaction refines its specification. */
module ArchiveStore {
  import opened Prelude
  import opened ArchiveTypes
  import opened Ingest
  import opened Disputes
  import opened Import
  import opened Capacity
  import opened Runs
  import opened Consistency
  import opened Tables

  /** What importBatch counts as it goes. */
  datatype Tally = Tally(
    inserted: nat, duplicates: nat, edited: nat, conflicts: nat, conflicting: seq<(string, string)>, touched: set<ChatKey>)

  function AccOf(st: State, usage: Budget, t: Tally): Acc {
    Acc(st, Some(usage), t.inserted, t.duplicates, t.edited, t.conflicts, t.conflicting, t.touched)
  }

  class Archive {
    var keys: map<KeyId, Key>
    var sources: map<SourceId, Source>
    var chats: map<ChatKey, Chat>
    var rows: map<Place, Row>
    var disputes: map<Ref, Cand>
    var serial: nat

    ghost function View(): State
      reads this
    {
      State(keys, sources, chats, Join(rows, disputes), serial)
    }

    ghost predicate Linked()
      reads this
    {
      NoOrphans(rows, disputes)
    }

    ghost predicate Valid()
      reads this
    {
      Linked() && Inv(View())
    }

    constructor ()
      ensures Valid() && View() == EMPTY
    {
      keys, sources, chats, rows, disputes, serial := map[], map[], map[], map[], map[], 0;
      new;
      assert View() == EMPTY;
      assert Refs(EMPTY.messages) == {};
    }

    // ---- ingest.ts ----

    method UpsertChat(src: SourceId, channel: string, m: Incoming)
      requires Linked()
      modifies this`chats
      ensures Linked() && View() == Ingest.UpsertChat(old(View()), src, channel, m)
    {
      var room := ChatKey(src, m.chat);
      if room in chats {
        var c := chats[room];
        var title := if m.chatTitle.Some? then m.chatTitle else c.title;
        chats := chats[room := c.(title := title, lastMessageAt := Max(c.lastMessageAt, m.sentAt))];
      } else {
        chats := chats[room := Chat(channel, m.chatKind, m.chatTitle, m.sentAt, None, None)];
      }
    }

    method RecordMessage(src: SourceId, channel: string, m: Incoming, pushKey: Option<KeyId>, editedAt: Option<Time>)
      returns (rec: Recorded)
      requires Linked()
      modifies this`chats, this`rows, this`serial
      ensures Linked() && (View(), rec) == Record(old(View()), src, channel, m, pushKey, editedAt)
    {
      hide Join, CandsOf;
      UpsertChat(src, channel, m);
      var p := PlaceOf(src, m);
      JoinAt(rows, disputes, p);
      if p in rows {
        rec := Recorded(false, rows[p].text, rows[p].deletedAt.Some?);
      } else {
        var actor := if pushKey.Some? then ByKey else ByChannel;
        var row := Row(serial, BodyOf(m), m.text, editedAt, None, None, 0, pushKey, pushKey, Some(actor));
        NewcomerUndisputed(rows, disputes, p);
        JoinPutRow(rows, disputes, p, row);
        rows, serial := rows[p := row], serial + 1;
        rec := Recorded(true, None, false);
      }
    }

    method ClearDisputes(gone: set<Place>)
      requires Linked()
      modifies this`disputes
      ensures Linked() && disputes == Without(old(disputes), gone)
    {
      disputes := map r | r in disputes && r.at !in gone :: disputes[r];
    }

    /** One UPDATE of a message, and the DELETE of its candidates that follows it. */
    method Rewrite(p: Place, row: Row)
      requires Linked() && p in rows
      modifies this`rows, this`disputes
      ensures Linked() && rows == old(rows)[p := row]
      ensures View() == old(View()).(messages := old(View()).messages[p := Slot(row, map[])])
    {
      hide Join, CandsOf, Without;
      JoinPutRow(rows, disputes, p, row);
      rows := rows[p := row];
      JoinClear(rows, disputes, p);
      ClearDisputes({p});
    }

    method ApplyPushedEdit(p: Place, text: Option<string>, at: Time, key: Option<KeyId>) returns (applied: bool)
      requires Linked()
      modifies this`rows, this`disputes
      ensures Linked() && (View(), applied) == PushedEdit(old(View()), p, text, at, key)
    {
      hide Join, CandsOf;
      JoinAt(rows, disputes, p);
      applied := p in rows && rows[p].deletedAt.None? && (rows[p].editedAt.None? || rows[p].editedAt.value < at);
      if applied {
        var row := rows[p].(text := text, editedAt := Some(at), conflictedAt := None, revision := rows[p].revision + 1,
                            contentKey := key, contentActor := if key.Some? then Some(ByKey) else None);
        Rewrite(p, row);
      }
    }

    method ApplyEdit(src: SourceId, channel: string, m: Incoming, now: Time)
      requires Linked()
      modifies this
      ensures Linked() && View() == LiveEdit(old(View()), src, channel, m, now)
    {
      hide Join, CandsOf;
      UpsertChat(src, channel, m);
      var p := PlaceOf(src, m);
      JoinAt(rows, disputes, p);
      if p in rows && rows[p].deletedAt.None? && AuthoredBy(m.actor, rows[p].body) {
        var row := rows[p].(text := m.text, editedAt := Some(now), conflictedAt := None, revision := rows[p].revision + 1,
                            contentKey := None, contentActor := Some(ByChannel));
        Rewrite(p, row);
        return;
      }
      if m.actor.Some? || channel == "whatsapp" {
        return;
      }
      var _ := RecordMessage(src, channel, m, None, None);
    }

    /** One UPDATE per target chat, each clearing the disputes of the row it tombstoned. */
    method ApplyDelete(src: SourceId, ref: DeleteRef, now: Time) returns (count: nat)
      requires Linked()
      modifies this`rows, this`disputes
      ensures Linked() && (View(), count) == Delete(old(View()), src, ref, now)
    {
      hide Join, CandsOf, AuthoredBy, DeleteTargets, Ingest.Delete, HitsIn, BuriedIn, DeleteHits;
      var targets := set room | room in chats && room.source == src && DeleteTargets(ref, room.chat);
      count := 0;
      ghost var before := View();
      ghost var scope, done: set<ChatKey> := targets, {};
      HitsNowhere(before, src, ref, now);
      while targets != {}
        invariant Linked() && View() == before.(messages := BuriedIn(before.messages, HitsIn(before, src, ref, done), now))
        invariant done !! targets && done + targets == scope
        invariant count == |HitsIn(before, src, ref, done)|
        decreases |targets|
      {
        var room :| room in targets;
        var p := Place(room.source, room.chat, ref.ext);
        JoinAt(rows, disputes, p);
        HitsOneRoom(before, src, ref, now, done, room);
        if p in rows && rows[p].deletedAt.None? && AuthoredBy(ref.actor, rows[p].body) {
          var row := rows[p].(deletedAt := Some(now), conflictedAt := None, revision := rows[p].revision + 1);
          Rewrite(p, row);
          count := count + 1;
        }
        targets, done := targets - {room}, done + {room};
      }
      HitsEverywhere(before, src, ref, now, scope);
    }

    // ---- disputes.ts ----

    method PendingBudget() returns (b: Budget)
      requires Linked()
      ensures b == Pending(View().messages)
    {
      hide Join, CandsOf;
      RefsAreRows(rows, disputes);
      var todo := disputes.Keys;
      var n, bytes := 0, 0;
      while todo != {}
        invariant n + |todo| == |disputes.Keys| && bytes + SumBytes(todo) == SumBytes(disputes.Keys)
        decreases |todo|
      {
        var r :| r in todo;
        SumRemove(todo, r);
        n, bytes := n + 1, bytes + TextBytes(r.key.text);
        todo := todo - {r};
      }
      b := Budget(n, bytes);
    }

    method CaptureDispute(p: Place, key: KeyId, text: Option<string>, now: Time, budget: Option<Budget>)
      returns (full: bool, usage: Option<Budget>)
      requires Linked()
      modifies this`rows, this`disputes, this`serial
      ensures Linked()
      ensures var c := Capture(old(View()), p, key, text, now, budget);
        full == c.OverCapacity? && (full ==> View() == old(View())) && (!full ==> View() == c.st && usage == c.usage)
      ensures usage.Some? <==> budget.Some?
    {
      hide Join, CandsOf, Pending, Disputes.Full;
      full, usage := false, budget;
      JoinAt(rows, disputes, p);
      CandsAre(disputes, p);
      if p !in rows || rows[p].deletedAt.Some? || rows[p].text == text {
        return;
      }
      var k := CandKey(rows[p].revision, key, text);
      var r := Ref(p, k);
      var c;
      if r in disputes {
        c := disputes[r].(occurrences := disputes[r].occurrences + 1, lastSeen := now);
      } else {
        var known;
        if budget.Some? && !Disputes.Full(budget.value, text) {
          known := budget.value;
        } else {
          known := PendingBudget();
        }
        if Disputes.Full(known, text) {
          return true, budget;
        }
        c := Cand(serial, now, now, 1);
        serial := serial + 1;
        usage := if budget.Some? then Some(Budget(known.n + 1, known.bytes + TextBytes(text))) else None;
      }
      StoreCandidate(p, k, c, now);
    }

    /** Writing a candidate and marking its message. */
    method StoreCandidate(p: Place, k: CandKey, c: Cand, now: Time)
      requires Linked() && p in rows
      modifies this`rows, this`disputes
      ensures Linked()
      ensures var s := old(View()).messages[p];
        View() == old(View()).(messages := old(View()).messages[p := Slot(s.row.(conflictedAt := Some(now)), s.cands[k := c])])
    {
      hide Join, CandsOf;
      JoinAt(rows, disputes, p);
      JoinPutCand(rows, disputes, p, k, c);
      CandsPut(disputes, p, k, c, p);
      disputes := disputes[Ref(p, k) := c];
      JoinPutRow(rows, disputes, p, rows[p].(conflictedAt := Some(now)));
      rows := rows[p := rows[p].(conflictedAt := Some(now))];
    }

    method GetDispute(id: MessageId) returns (shown: Option<(Slot, Token)>)
      requires Linked()
      ensures shown == match UnderReview(View(), id) case None => None case Some(s) => Some((s, TokenOf(s)))
    {
      hide CandsOf, TokenOf;
      if id.at !in rows || rows[id.at].serial != id.serial || rows[id.at].deletedAt.Some? || rows[id.at].conflictedAt.None? {
        return None;
      }
      var s := Slot(rows[id.at], CandsOf(disputes, id.at));
      return Some((s, TokenOf(s)));
    }

    method ResolveDispute(id: MessageId, token: Token, action: Action, now: Time) returns (r: Resolution)
      requires Valid()
      modifies this`rows, this`disputes
      ensures Valid() && (View(), r) == Resolve(old(View()), id, token, action, now)
    {
      hide CandsOf, TokenOf, Join, Inv;
      JoinAt(rows, disputes, id.at);
      ResolveKeeps(View(), id, token, action, now);
      var current := GetDispute(id);
      if current.None? || current.value.1 != token {
        return Stale;
      }
      var s := current.value.0;
      var selected := set k | k in s.cands && action.Accept? && s.cands[k].serial == action.candidate;
      if action.Accept? && selected == {} {
        assert forall k :: k in s.cands && s.cands[k].serial == action.candidate ==> k in selected;
        return CandidateMissing;
      }
      var row := s.row.(conflictedAt := None, revision := s.row.revision + 1);
      match action {
        case Keep =>
        case Remove => row := row.(deletedAt := Some(now));
        case Accept(_) =>
          var k :| k in selected;
          var at := if row.editedAt.Some? then Max(now, row.editedAt.value) else Max(now, 0);
          row := row.(text := k.text, editedAt := Some(at), contentKey := Some(k.key), contentActor := Some(ByKey));
          CandidateUnique(View(), id.at, k);
      }
      Rewrite(id.at, row);
      return Resolved;
    }

    method DropSource(src: SourceId)
      requires Linked()
      modifies this`sources, this`chats, this`rows, this`disputes
      ensures Linked() && View() == DropSources(old(View()), {src})
    {
      hide Join, CandsOf, DropSources, RoomsOf, RowsOf;
      DropIsCascade(View(), rows, disputes, src);
      sources := sources - {src};
      chats := chats - RoomsOf(chats, src);
      Cascade(RowsOf(rows, src));
    }

    /** Deleting message rows takes their candidates with them. */
    method Cascade(gone: set<Place>)
      requires Linked()
      modifies this`rows, this`disputes
      ensures Linked() && rows == old(rows) - gone && View() == old(View()).(messages := old(View()).messages - gone)
    {
      JoinCascade(rows, disputes, gone);
      hide Join;
      rows := rows - gone;
      disputes := map r | r in disputes && r.at !in gone :: disputes[r];
    }

    /** Deletes one key's candidates, then settles every message that lost its last one. */
    method WithdrawCandidates(key: KeyId)
      requires Linked()
      modifies this`rows, this`disputes
      ensures Linked()
      ensures View() == old(View()).(messages := map p | p in old(View()).messages :: WithoutKey(old(View()).messages[p], key))
    {
      hide Join, CandsOf, Halfway, WithoutKey, OfOthers, Targets, NotBy, Unmarked;
      ghost var before := View();
      TargetsAreRows(rows, disputes, key);
      WithdrawStart(rows, disputes, key);
      WithdrawEnd(rows, disputes, key);
      var targets := Targets(disputes, key);
      ghost var all, done: set<Place> := targets, {};
      disputes := NotBy(disputes, key);
      while targets != {}
        invariant Linked() && done !! targets && done + targets == all
        invariant View() == before.(messages := Halfway(before.messages, key, done))
        decreases |targets|
      {
        var p :| p in targets;
        JoinAt(old(rows), old(disputes), p);
        JoinAt(rows, disputes, p);
        TargetSettles(old(rows), old(disputes), key, p);
        WithdrawOne(before.messages, key, done, p);
        Settle(p);
        targets, done := targets - {p}, done + {p};
      }
      assert done == all;
    }

    /** Clears the conflict mark of a message whose last candidate went. */
    method Settle(p: Place)
      requires Linked() && p in rows
      modifies this`rows
      ensures Linked() && p in old(View()).messages
      ensures View() == old(View()).(messages := old(View()).messages[p := Unmarked(old(View()).messages[p])])
    {
      hide Join, CandsOf;
      JoinAt(rows, disputes, p);
      CandsAre(disputes, p);
      var remaining := set r | r in disputes && r.at == p;
      if remaining == {} {
        assert CandsOf(disputes, p) == map[] by {
          assert forall k :: Ref(p, k) in disputes ==> Ref(p, k) in remaining;
        }
        var row := rows[p].(conflictedAt := None, revision := rows[p].revision + 1);
        JoinPutRow(rows, disputes, p, row);
        rows := rows[p := row];
      } else {
        var r :| r in remaining;
        assert r == Ref(p, r.key);
        assert r.key in CandsOf(disputes, p);
      }
    }

    method PurgeRevokedKey(key: KeyId, expected: Option<Preview>) returns (out: PurgeResult)
      requires Linked()
      modifies this`sources, this`chats, this`rows, this`disputes
      ensures Linked() && (View(), out) == Purge(old(View()), key, expected)
    {
      hide Join, CandsOf, PreviewOf, TouchedSources, WithoutKey, PurgedMessages, DropSources, PurgedPlaces;
      if key !in keys || !keys[key].revoked || !keys[key].canPush {
        return NotFound;
      }
      var preview := PreviewOf(Join(rows, disputes), key);
      if expected.Some? && expected.value != preview {
        return PurgeStale;
      }
      ghost var before := View();
      WithdrawCandidates(key);
      var removed := set p | p in rows && rows[p].pushKey == Some(key) && rows[p].deletedAt.None?;
      PurgedAreRows(rows, disputes, key);
      PurgedUnmoved(before.messages, key);
      PurgedAre(before.messages, key);
      Cascade(removed);
      var swept := SweepSources(TouchedSources(preview));
      out := PurgeDone(|removed|, swept);
    }

    /** Removes the push sources that hold no message any more, and counts every emptied one. */
    method SweepSources(touched: set<SourceId>) returns (count: nat)
      requires Linked()
      modifies this`sources, this`chats, this`rows, this`disputes
      ensures Linked() && count == |EmptiedOf(old(View()).messages, touched)| && View() == SweptOf(old(View()), touched)
    {
      hide Join, CandsOf, DropSources, Emptied, EmptiedOf, SweptOf;
      ghost var before := View();
      var todo := touched;
      ghost var done: set<SourceId> := {};
      count := 0;
      SweepNothing(before);
      while todo != {}
        invariant Linked() && done !! todo && done + todo == touched
        invariant count == |EmptiedOf(before.messages, done)| && View() == SweptOf(before, done)
        decreases |todo|
      {
        var s :| s in todo;
        SweptKeepsMessages(before, done);
        EmptiedRows(rows, disputes, s);
        if forall p :: p in rows ==> p.source != s {
          SweepOne(before, done, s);
          if s in sources && sources[s].mode == Push {
            DropSource(s);
          }
          count := count + 1;
        } else {
          SweepSkips(before, done, s);
        }
        todo, done := todo - {s}, done + {s};
      }
      assert done == touched;
    }

    // ---- import.ts ----

    method UpsertSource(key: KeyId, ref: SourceRef) returns (src: SourceId)
      requires Linked() && SourcesUnique(sources)
      modifies this`sources, this`serial
      ensures Linked() && (View(), src) == Import.UpsertSource(old(View()), key, ref)
    {
      hide Join;
      var existing := set s | s in sources && IsPushSource(sources[s], ref);
      if existing != {} {
        src :| src in existing;
        assert IsPushSource(sources[src], ref);
        FoundSource(sources, ref, src);
        sources := sources[src := sources[src].(name := Some(ref.name))];
      } else {
        assert forall s :: s in sources && IsPushSource(sources[s], ref) ==> s in existing;
        src := serial;
        sources := sources[src := Source(Push, ref.channel, Some(ref.account), Some(ref.name), Some(key), false, None, 0, None)];
        serial := serial + 1;
      }
    }

    method MarkChatPushes(src: SourceId, key: KeyId, touched: set<ChatKey>, deletes: seq<Deletion>, now: Time)
      requires Linked()
      modifies this`chats
      ensures Linked() && View() == MarkPushes(old(View()), src, key, touched, deletes, now)
    {
      hide Join;
      var all := TouchDeleted(src, touched, deletes);
      StampRooms(all, key, now);
      AllStamped(old(View()), src, key, touched, deletes, now);
    }

    /** A lookup per delete adds its chat to the touched ones. */
    method TouchDeleted(src: SourceId, touched: set<ChatKey>, deletes: seq<Deletion>) returns (all: set<ChatKey>)
      ensures all == touched + FoundRooms(chats, src, deletes)
    {
      hide FoundRooms;
      NoneFound(chats, src);
      assert deletes[..0] == [];
      all := touched;
      for k := 0 to |deletes|
        invariant all == touched + FoundRooms(chats, src, deletes[..k])
      {
        FoundNext(chats, src, deletes, k);
        var room := ChatKey(src, deletes[k].chat);
        if room in chats {
          all := all + {room};
        }
      }
      assert deletes[..|deletes|] == deletes;
    }

    /** An update per touched chat. */
    method StampRooms(rooms: set<ChatKey>, key: KeyId, now: Time)
      modifies this`chats
      ensures chats == Stamped(old(chats), rooms, key, now)
    {
      hide Stamped;
      ghost var before := chats;
      NothingStamped(before, key, now);
      var todo := rooms;
      ghost var done: set<ChatKey> := {};
      while todo != {}
        invariant todo !! done && todo + done == rooms && chats == Stamped(before, done, key, now)
        decreases |todo|
      {
        var room :| room in todo;
        StampedNext(before, done, room, key, now);
        if room in chats {
          chats := chats[room := chats[room].(lastPushAt := Some(now), lastPushKey := Some(key))];
        }
        todo, done := todo - {room}, done + {room};
      }
      assert done == rooms;
    }

    /** The whole batch in one transaction: a full dispute table puts every row back. */
    method ImportBatch(key: KeyId, b: Batch, now: Time) returns (out: Result<ImportResult, ImportError>)
      requires Valid()
      modifies this
      ensures Valid() && (View(), out) == Import.ImportBatch(old(View()), key, b, now)
    {
      hide Inv, Join, Pending, Import.UpsertSource, Entries, Import.Deletes, Finish, MarkPushes;
      ghost var before := View();
      ImportKeeps(before, key, b, now);
      if key !in keys || !keys[key].canPush || keys[key].revoked {
        return Err(KeyRevoked);
      }
      var sources0, chats0, rows0, disputes0, serial0 := sources, chats, rows, disputes, serial;
      assert SourcesUnique(sources) by { InvUnique(before); }
      var src := UpsertSource(key, b.source);
      var full, usage, tally := FoldEntries(src, b.source.channel, key, b.messages, now);
      if full {
        sources, chats, rows, disputes, serial := sources0, chats0, rows0, disputes0, serial0;
        return Err(DisputeCapacity);
      }
      ghost var ctx := Ctx(src, b.source.channel, key, now);
      ghost var last := AccOf(View(), usage, tally);
      var deleted := ApplyDeletes(src, b.deletes, now);
      StampSource(src, key, tally.conflicts, now);
      MarkChatPushes(src, key, tally.touched, b.deletes, now);
      FinishIs(last, ctx, b);
      out := Ok(ImportResult(
        src, tally.inserted, tally.duplicates, tally.edited, deleted, tally.conflicts, tally.conflicting));
    }

    /** The loop over the batch's messages, with the budget read once and carried along. */
    method FoldEntries(src: SourceId, channel: string, key: KeyId, ms: seq<Entry>, now: Time)
      returns (full: bool, usage: Budget, tally: Tally)
      requires Linked()
      modifies this`chats, this`rows, this`disputes, this`serial
      ensures Linked()
      ensures Entries(Start(old(View()), Some(Pending(old(View()).messages))), Ctx(src, channel, key, now), ms) ==
        if full then Refused else Folded(AccOf(View(), usage, tally))
    {
      hide Join, Pending, Record, PushedEdit, Capture, Entries;
      usage := PendingBudget();
      ghost var ctx := Ctx(src, channel, key, now);
      ghost var first := Start(View(), Some(usage));
      var inserted, duplicates, edited, conflicts := 0, 0, 0, 0;
      var conflicting: seq<(string, string)> := [];
      var touched: set<ChatKey> := {};
      EntriesNone(first, ctx, ms);
      for i := 0 to |ms|
        invariant Linked()
        invariant Entries(first, ctx, ms[..i]) ==
          Folded(Acc(View(), Some(usage), inserted, duplicates, edited, conflicts, conflicting, touched))
      {
        var m := ms[i];
        EntriesNext(first, ctx, ms, i);
        var rec := RecordMessage(src, channel, ToIncoming(m), Some(key), m.editedAt);
        touched := touched + {ChatKey(src, m.chat)};
        if rec.inserted {
          inserted := inserted + 1;
        } else {
          duplicates := duplicates + 1;
          if rec.existingDeleted {
          } else if m.editedAt.Some? {
            var applied := ApplyPushedEdit(Place(src, m.chat, m.ext), m.text, m.editedAt.value, Some(key));
            edited := edited + if applied then 1 else 0;
          } else if rec.existingText != m.text {
            conflicts := conflicts + 1;
            if |conflicting| < MAX_PROBLEMS {
              conflicting := conflicting + [(m.chat, m.ext)];
            }
            var over, left := CaptureDispute(Place(src, m.chat, m.ext), key, m.text, now, Some(usage));
            if over {
              EntriesRefuse(first, ctx, ms, i + 1);
              return true, usage, Tally(inserted, duplicates, edited, conflicts, conflicting, touched);
            }
            usage := left.value;
          }
        }
      }
      assert ms[..|ms|] == ms;
      return false, usage, Tally(inserted, duplicates, edited, conflicts, conflicting, touched);
    }

    method ApplyDeletes(src: SourceId, ds: seq<Deletion>, now: Time) returns (deleted: nat)
      requires Linked()
      modifies this`rows, this`disputes
      ensures Linked() && (View(), deleted) == Import.Deletes(old(View()), src, ds, now)
    {
      hide Join, Delete;
      deleted := 0;
      for i := 0 to |ds|
        invariant Linked() && (View(), deleted) == Import.Deletes(old(View()), src, ds[..i], now)
      {
        assert ds[..i + 1][..i] == ds[..i];
        var n := ApplyDelete(src, DeleteRef(Some(ds[i].chat), ds[i].ext, None), now);
        deleted := deleted + n;
      }
      assert ds[..|ds|] == ds;
    }

    method StampSource(src: SourceId, key: KeyId, conflicts: nat, now: Time)
      requires Linked()
      modifies this`sources
      ensures Linked() && View() == Stamp(old(View()), src, key, conflicts, now)
    {
      hide Join;
      if src in sources {
        sources := sources[src := sources[src].(
          lastSyncAt := Some(now), lastImportConflicts := conflicts, lastPushKey := Some(key))];
      }
    }
  }

  // ---- stamping chats, delete by delete and chat by chat ----

  function FoundRooms(chats: map<ChatKey, Chat>, src: SourceId, deletes: seq<Deletion>): set<ChatKey> {
    set d | d in deletes && ChatKey(src, d.chat) in chats :: ChatKey(src, d.chat)
  }

  lemma FoundNext(chats: map<ChatKey, Chat>, src: SourceId, deletes: seq<Deletion>, k: nat)
    requires k < |deletes|
    ensures var room := ChatKey(src, deletes[k].chat);
      FoundRooms(chats, src, deletes[..k + 1]) == FoundRooms(chats, src, deletes[..k]) + if room in chats then {room} else {}
  {
    assert forall d :: d in deletes[..k + 1] <==> d in deletes[..k] || d == deletes[k];
  }

  function Stamped(chats: map<ChatKey, Chat>, done: set<ChatKey>, key: KeyId, now: Time): map<ChatKey, Chat> {
    map room | room in chats ::
      if room in done then chats[room].(lastPushAt := Some(now), lastPushKey := Some(key)) else chats[room]
  }

  lemma NoneFound(chats: map<ChatKey, Chat>, src: SourceId)
    ensures FoundRooms(chats, src, []) == {}
  {
  }

  lemma NothingStamped(chats: map<ChatKey, Chat>, key: KeyId, now: Time)
    ensures Stamped(chats, {}, key, now) == chats
  {
  }

  lemma StampedNext(chats: map<ChatKey, Chat>, done: set<ChatKey>, room: ChatKey, key: KeyId, now: Time)
    ensures var was := Stamped(chats, done, key, now);
      was.Keys == chats.Keys &&
      Stamped(chats, done + {room}, key, now) ==
        if room in chats then was[room := was[room].(lastPushAt := Some(now), lastPushKey := Some(key))] else was
  {
  }

  lemma AllStamped(st: State, src: SourceId, key: KeyId, touched: set<ChatKey>, deletes: seq<Deletion>, now: Time)
    ensures MarkPushes(st, src, key, touched, deletes, now) ==
      st.(chats := Stamped(st.chats, touched + FoundRooms(st.chats, src, deletes), key, now))
  {
  }

  lemma InvUnique(st: State)
    requires Inv(st)
    ensures SourcesUnique(st.sources)
  {
  }

  lemma FoundSource(sources: map<SourceId, Source>, ref: SourceRef, src: SourceId)
    requires SourcesUnique(sources) && src in sources && IsPushSource(sources[src], ref)
    ensures FindSource(sources, ref) == Some(src)
  {
  }

  lemma EntriesNone(a: Acc, ctx: Ctx, ms: seq<Entry>)
    ensures Entries(a, ctx, ms[..0]) == Folded(a)
  {
  }

  lemma EntriesNext(a: Acc, ctx: Ctx, ms: seq<Entry>, i: nat)
    requires i < |ms| && Entries(a, ctx, ms[..i]).Folded?
    ensures Entries(a, ctx, ms[..i + 1]) == OneEntry(Entries(a, ctx, ms[..i]).acc, ctx, ms[i])
  {
    hide OneEntry;
    assert ms[..i + 1][..i] == ms[..i];
  }

  /** One refused entry refuses the batch. */
  lemma {:induction false} EntriesRefuse(a: Acc, ctx: Ctx, ms: seq<Entry>, i: nat)
    requires i <= |ms| && Entries(a, ctx, ms[..i]).Refused?
    ensures Entries(a, ctx, ms).Refused?
  {
    hide OneEntry;
    if i == |ms| {
      assert ms[..i] == ms;
    } else {
      assert ms[..|ms| - 1][..i] == ms[..i];
      EntriesRefuse(a, ctx, ms[..|ms| - 1], i);
    }
  }

  lemma FinishIs(a: Acc, ctx: Ctx, b: Batch)
    ensures var (st1, deleted) := Import.Deletes(a.st, ctx.src, b.deletes, ctx.now);
      Finish(a, ctx, b) ==
        (MarkPushes(Stamp(st1, ctx.src, ctx.key, a.conflicts, ctx.now), ctx.src, ctx.key, a.touched, b.deletes, ctx.now),
         ImportResult(ctx.src, a.inserted, a.duplicates, a.edited, deleted, a.conflicts, a.conflicting))
  {
    hide Import.Deletes, Stamp, MarkPushes;
  }

  lemma CandidateUnique(st: State, p: Place, k: CandKey)
    requires Inv(st) && p in st.messages && k in st.messages[p].cands
    ensures Candidate(st.messages[p], st.messages[p].cands[k].serial) == Some(k)
  {
    assert SlotOk(st.messages[p], st.serial);
  }
}
