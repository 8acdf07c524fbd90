/** Every step keeps the disputes consistent and within capacity, so every reachable archive is. */
module Consistency {
  import opened Prelude
  import opened ArchiveTypes
  import opened Ingest
  import opened Disputes
  import opened Import
  import opened Capacity
  import opened Runs

  lemma SlotOkLater(s: Slot, a: nat, b: nat)
    requires SlotOk(s, a) && a <= b
    ensures SlotOk(s, b)
  {
  }

  lemma SlotsOkPut(m: map<Place, Slot>, a: nat, p: Place, s: Slot, b: nat)
    requires SlotsOk(m, a) && SlotOk(s, b) && a <= b
    ensures SlotsOk(m[p := s], b)
  {
    hide SlotOk;
    var n := m[p := s];
    forall q | q in n ensures SlotOk(n[q], b) {
      if q != p {
        SlotOkLater(m[q], a, b);
      }
    }
  }

  lemma SlotsOkLater(m: map<Place, Slot>, a: nat, b: nat)
    requires SlotsOk(m, a) && a <= b
    ensures SlotsOk(m, b)
  {
    hide SlotOk;
    forall q | q in m ensures SlotOk(m[q], b) {
      SlotOkLater(m[q], a, b);
    }
  }

  lemma RecordKeeps(st: State, src: SourceId, channel: string, m: Incoming, key: Option<KeyId>, editedAt: Option<Time>)
    requires Inv(st) && src in st.sources
    ensures Inv(Record(st, src, channel, m, key, editedAt).0)
    ensures PlaceOf(src, m) in Record(st, src, channel, m, key, editedAt).0.messages
    ensures Pending(Record(st, src, channel, m, key, editedAt).0.messages) == Pending(st.messages)
  {
    hide SlotsOk, Pending, SourcesUnique;
    var p := PlaceOf(src, m);
    if p !in st.messages {
      var s := NewSlot(m, key, editedAt, st.serial);
      PutSame(st.messages, p, s);
      SlotsOkPut(st.messages, st.serial, p, s, st.serial + 1);
    }
  }

  lemma PutKeeps(st: State, p: Place, s: Slot, serial: nat)
    requires Inv(st) && p in st.messages && st.serial <= serial
    requires SlotOk(s, serial) && s.row.body == st.messages[p].row.body
    requires WithinCapacity(st.messages[p := s])
    ensures Inv(st.(messages := st.messages[p := s], serial := serial))
  {
    SlotsOkPut(st.messages, st.serial, p, s, serial);
    hide SlotsOk, WithinCapacity, SourcesUnique;
  }

  lemma EditKeeps(st: State, p: Place, text: Option<string>, at: Time, key: Option<KeyId>, actor: Option<ContentActor>)
    requires Inv(st) && p in st.messages
    ensures var n := st.messages[p := Edited(st.messages[p], text, at, key, actor)];
      Inv(st.(messages := n)) && AtMost(Pending(n), Pending(st.messages))
  {
    var s := Edited(st.messages[p], text, at, key, actor);
    PutShrinks(st.messages, p, s);
    PutKeeps(st, p, s, st.serial);
  }

  lemma BumpOk(s: Slot, k: CandKey, now: Time, serial: nat)
    requires SlotOk(s, serial) && k in s.cands
    ensures SlotOk(Bump(s, k, now), serial)
  {
    var t := Bump(s, k, now);
    assert forall j :: j in t.cands ==> j in s.cands && t.cands[j].serial == s.cands[j].serial;
  }

  lemma AddCandidateOk(s: Slot, k: CandKey, now: Time, serial: nat)
    requires SlotOk(s, serial) && k !in s.cands
    requires k.revision == s.row.revision && k.text != s.row.text && s.row.deletedAt.None?
    ensures SlotOk(AddCandidate(s, k, now, serial), serial + 1)
  {
    var t := AddCandidate(s, k, now, serial);
    assert forall j :: j in t.cands && j != k ==> j in s.cands && t.cands[j] == s.cands[j];
  }

  lemma BumpKeeps(st: State, p: Place, k: CandKey, now: Time)
    requires Inv(st) && p in st.messages && k in st.messages[p].cands
    ensures var n := st.messages[p := Bump(st.messages[p], k, now)];
      Inv(st.(messages := n)) && Pending(n) == Pending(st.messages)
  {
    var s := st.messages[p];
    PutSame(st.messages, p, Bump(s, k, now));
    BumpOk(s, k, now, st.serial);
    PutKeeps(st, p, Bump(s, k, now), st.serial);
  }

  lemma AddCandidateFits(m: map<Place, Slot>, p: Place, k: CandKey, now: Time, serial: nat)
    requires p in m && k !in m[p].cands && !Full(Pending(m), k.text)
    ensures var n := m[p := AddCandidate(m[p], k, now, serial)];
      Pending(n) == Budget(Pending(m).n + 1, Pending(m).bytes + TextBytes(k.text)) && WithinCapacity(n)
  {
    hide Pending;
    PutAdds(m, p, AddCandidate(m[p], k, now, serial), k);
  }

  lemma AddCandidateKeeps(st: State, p: Place, k: CandKey, now: Time)
    requires Inv(st) && p in st.messages && k !in st.messages[p].cands
    requires k.revision == st.messages[p].row.revision && k.text != st.messages[p].row.text && st.messages[p].row.deletedAt.None?
    requires !Full(Pending(st.messages), k.text)
    ensures Inv(st.(messages := st.messages[p := AddCandidate(st.messages[p], k, now, st.serial)], serial := st.serial + 1))
  {
    hide SlotOk, WithinCapacity, LinksOk, SourcesUnique, Pending, Full;
    var t := AddCandidate(st.messages[p], k, now, st.serial);
    AddCandidateFits(st.messages, p, k, now, st.serial);
    AddCandidateOk(st.messages[p], k, now, st.serial);
    PutKeeps(st, p, t, st.serial + 1);
  }

  lemma CaptureKeeps(st: State, p: Place, key: KeyId, text: Option<string>, now: Time, usage: Option<Budget>)
    requires Inv(st)
    requires usage.Some? ==> AtMost(Pending(st.messages), usage.value)
    ensures var c := Capture(st, p, key, text, now, usage);
      c.Captured? ==> Inv(c.st) && c.st.sources == st.sources && (c.usage.Some? <==> usage.Some?) &&
                      (usage.Some? ==> AtMost(Pending(c.st.messages), c.usage.value))
  {
    hide Inv, Pending;
    if p in st.messages && st.messages[p].row.deletedAt.None? && st.messages[p].row.text != text {
      var k := CandKey(st.messages[p].row.revision, key, text);
      if k in st.messages[p].cands {
        BumpKeeps(st, p, k, now);
      } else if !Full(Pending(st.messages), text) {
        AddCandidateFits(st.messages, p, k, now, st.serial);
        AddCandidateKeeps(st, p, k, now);
      }
    }
  }

  ghost predicate BudgetOk(a: Acc) {
    a.usage.Some? ==> AtMost(Pending(a.st.messages), a.usage.value)
  }

  lemma OneEntryKeeps(a: Acc, ctx: Ctx, e: Entry)
    requires Inv(a.st) && BudgetOk(a) && ctx.src in a.st.sources
    ensures var f := OneEntry(a, ctx, e);
      f.Folded? ==> Inv(f.acc.st) && BudgetOk(f.acc) && f.acc.st.sources == a.st.sources &&
                    (f.acc.usage.Some? <==> a.usage.Some?)
  {
    hide Inv, Pending, Capture, Edited;
    var p := Place(ctx.src, e.chat, e.ext);
    RecordKeeps(a.st, ctx.src, ctx.channel, ToIncoming(e), Some(ctx.key), e.editedAt);
    var (st1, rec) := Record(a.st, ctx.src, ctx.channel, ToIncoming(e), Some(ctx.key), e.editedAt);
    if !rec.inserted && !rec.existingDeleted {
      if e.editedAt.Some? {
        if PushedEditApplies(st1.messages[p], e.editedAt.value) {
          EditKeeps(st1, p, e.text, e.editedAt.value, Some(ctx.key), Some(ByKey));
        }
      } else {
        CaptureKeeps(st1, p, ctx.key, e.text, ctx.now, a.usage);
      }
    }
  }

  lemma {:induction false} EntriesKeep(a: Acc, ctx: Ctx, ms: seq<Entry>)
    requires Inv(a.st) && BudgetOk(a) && ctx.src in a.st.sources
    ensures var f := Entries(a, ctx, ms);
      f.Folded? ==> Inv(f.acc.st) && BudgetOk(f.acc) && f.acc.st.sources == a.st.sources &&
                    (f.acc.usage.Some? <==> a.usage.Some?)
  {
    hide Inv, BudgetOk, OneEntry;
    if ms != [] {
      EntriesKeep(a, ctx, ms[..|ms| - 1]);
      var f := Entries(a, ctx, ms[..|ms| - 1]);
      if f.Folded? {
        OneEntryKeeps(f.acc, ctx, ms[|ms| - 1]);
      }
    }
  }

  lemma TombstoneOk(s: Slot, now: Time, serial: nat)
    requires SlotOk(s, serial)
    ensures SlotOk(Tombstone(s, now), serial)
  {
  }

  lemma DeleteShrinks(st: State, src: SourceId, ref: DeleteRef, now: Time)
    ensures AtMost(Pending(Delete(st, src, ref, now).0.messages), Pending(st.messages))
  {
    hide DeleteHits;
    var messages := Delete(st, src, ref, now).0.messages;
    forall r | r in Refs(messages) ensures r in Refs(st.messages) {
    }
    PendingShrinks(messages, st.messages);
  }

  lemma DeleteKeeps(st: State, src: SourceId, ref: DeleteRef, now: Time)
    requires Inv(st)
    ensures Inv(Delete(st, src, ref, now).0)
  {
    hide DeleteHits, SourcesUnique, Pending, SlotOk;
    var messages := Delete(st, src, ref, now).0.messages;
    DeleteShrinks(st, src, ref, now);
    forall p | p in messages ensures SlotOk(messages[p], st.serial) {
      TombstoneOk(st.messages[p], now, st.serial);
    }
  }

  lemma {:induction false} DeletesKeep(st: State, src: SourceId, ds: seq<Deletion>, now: Time)
    requires Inv(st)
    ensures Inv(Deletes(st, src, ds, now).0)
    ensures Deletes(st, src, ds, now).0 == st.(messages := Deletes(st, src, ds, now).0.messages)
  {
    if ds != [] {
      DeletesKeep(st, src, ds[..|ds| - 1], now);
      var d := ds[|ds| - 1];
      DeleteKeeps(Deletes(st, src, ds[..|ds| - 1], now).0, src, DeleteRef(Some(d.chat), d.ext, None), now);
    }
  }

  lemma UpsertSourceKeeps(st: State, key: KeyId, ref: SourceRef)
    requires Inv(st)
    ensures var (st1, src) := UpsertSource(st, key, ref);
      Inv(st1) && src in st1.sources && IsPushSource(st1.sources[src], ref) &&
      st1.messages == st.messages && st1.chats == st.chats && st1.keys == st.keys
  {
    var (st1, src) := UpsertSource(st, key, ref);
    assert FindSource(st.sources, ref).None? ==> forall q :: q in st.sources ==> !IsPushSource(st.sources[q], ref);
    forall s, t, r | s in st1.sources && t in st1.sources && IsPushSource(st1.sources[s], r) && IsPushSource(st1.sources[t], r)
      ensures s == t
    {
      if FindSource(st.sources, ref).Some? || (s != src && t != src) {
        assert IsPushSource(st.sources[s], r) && IsPushSource(st.sources[t], r);
      }
    }
  }

  lemma StampKeeps(st: State, src: SourceId, key: KeyId, conflicts: nat, now: Time)
    requires Inv(st)
    ensures Inv(Stamp(st, src, key, conflicts, now))
  {
    var st1 := Stamp(st, src, key, conflicts, now);
    forall s, t, r | s in st1.sources && t in st1.sources && IsPushSource(st1.sources[s], r) && IsPushSource(st1.sources[t], r)
      ensures s == t
    {
      assert IsPushSource(st.sources[s], r) && IsPushSource(st.sources[t], r);
    }
  }

  lemma MarkPushesKeeps(st: State, src: SourceId, key: KeyId, touched: set<ChatKey>, deletes: seq<Deletion>, now: Time)
    requires Inv(st)
    ensures Inv(MarkPushes(st, src, key, touched, deletes, now))
  {
    hide SlotsOk, SourcesUnique, WithinCapacity;
  }

  lemma ImportKeeps(st: State, key: KeyId, b: Batch, now: Time)
    requires Inv(st)
    ensures Inv(ImportBatch(st, key, b, now).0)
  {
    hide Inv, Pending, Entries, Deletes, Stamp, UpsertSource;
    if MayPush(st, key) {
      var (st1, src) := UpsertSource(st, key, b.source);
      UpsertSourceKeeps(st, key, b.source);
      var ctx := Ctx(src, b.source.channel, key, now);
      EntriesKeep(Start(st1, Some(Pending(st1.messages))), ctx, b.messages);
      var f := Entries(Start(st1, Some(Pending(st1.messages))), ctx, b.messages);
      if f.Folded? {
        DeletesKeep(f.acc.st, src, b.deletes, now);
        var st2 := Deletes(f.acc.st, src, b.deletes, now).0;
        StampKeeps(st2, src, key, f.acc.conflicts, now);
        MarkPushesKeeps(Stamp(st2, src, key, f.acc.conflicts, now), src, key, f.acc.touched, b.deletes, now);
      }
    }
  }

  lemma LiveEditKeeps(st: State, src: SourceId, channel: string, m: Incoming, now: Time)
    requires Inv(st) && src in st.sources
    ensures Inv(LiveEdit(st, src, channel, m, now))
  {
    var st1 := UpsertChat(st, src, channel, m);
    assert Inv(st1);
    var p := PlaceOf(src, m);
    if p in st1.messages && st1.messages[p].row.deletedAt.None? && AuthoredBy(m.actor, st1.messages[p].row.body) {
      EditKeeps(st1, p, m.text, now, None, Some(ByChannel));
    } else {
      RecordKeeps(st1, src, channel, m, None, None);
    }
  }

  lemma ResolveKeeps(st: State, id: MessageId, token: Token, action: Action, now: Time)
    requires Inv(st)
    ensures Inv(Resolve(st, id, token, action, now).0)
  {
    var (st1, r) := Resolve(st, id, token, action, now);
    if r == Resolved {
      PutShrinks(st.messages, id.at, st1.messages[id.at]);
      PutKeeps(st, id.at, st1.messages[id.at], st.serial);
    }
  }

  lemma DropKeeps(st: State, gone: set<SourceId>)
    requires Inv(st)
    ensures Inv(DropSources(st, gone))
  {
    var st1 := DropSources(st, gone);
    PendingShrinks(st1.messages, st.messages);
    forall s, t, r | s in st1.sources && t in st1.sources && IsPushSource(st1.sources[s], r) && IsPushSource(st1.sources[t], r)
      ensures s == t
    {
      assert IsPushSource(st.sources[s], r) && IsPushSource(st.sources[t], r);
    }
  }

  lemma WithoutKeyOk(s: Slot, key: KeyId, serial: nat)
    requires SlotOk(s, serial)
    ensures SlotOk(WithoutKey(s, key), serial)
  {
  }

  lemma PurgedMessagesKeep(st: State, key: KeyId)
    requires Inv(st)
    ensures Inv(st.(messages := PurgedMessages(st.messages, key)))
  {
    hide SlotOk, SourcesUnique, Pending;
    var messages := PurgedMessages(st.messages, key);
    forall p | p in messages ensures SlotOk(messages[p], st.serial) {
      WithoutKeyOk(st.messages[p], key, st.serial);
    }
    assert Refs(messages) <= Refs(st.messages);
    PendingShrinks(messages, st.messages);
  }

  lemma PurgeKeeps(st: State, key: KeyId, expected: Option<Preview>)
    requires Inv(st)
    ensures Inv(Purge(st, key, expected).0)
  {
    hide Inv, DropSources, PurgedMessages, PreviewOf, TouchedSources, Emptied;
    PurgedMessagesKeep(st, key);
    var messages := PurgedMessages(st.messages, key);
    DropKeeps(st.(messages := messages), PushOnly(st.sources, Swept(PreviewOf(st.messages, key), messages)));
  }

  lemma SourcesKept(st: State, st1: State)
    requires Inv(st)
    requires st1 == st.(sources := st1.sources, serial := st1.serial) && st.serial <= st1.serial
    requires st.sources.Keys <= st1.sources.Keys && forall s :: s in st1.sources ==> s < st1.serial
    requires forall s, r :: s in st1.sources && IsPushSource(st1.sources[s], r) ==> s in st.sources && IsPushSource(st.sources[s], r)
    ensures Inv(st1)
  {
    SlotsOkLater(st.messages, st.serial, st1.serial);
    hide SlotsOk, WithinCapacity;
  }

  lemma KeysKept(st: State, st1: State)
    requires Inv(st)
    requires st1 == st.(keys := st1.keys, serial := st1.serial) && st.serial <= st1.serial
    requires forall k :: k in st1.keys ==> k < st1.serial
    ensures Inv(st1)
  {
    SlotsOkLater(st.messages, st.serial, st1.serial);
    hide SlotsOk, WithinCapacity, SourcesUnique;
  }

  lemma AdminKeeps(st: State, step: Step)
    requires Inv(st) && (step.MintKey? || step.RevokeKey? || step.OpenLive? || step.RevokeSource?)
    ensures Inv(Apply(st, step))
  {
    var st1 := Apply(st, step);
    assert forall k :: k in st.keys ==> k < st.serial;
    assert forall s :: s in st.sources ==> s < st.serial;
    if step.MintKey? || step.RevokeKey? {
      KeysKept(st, st1);
    } else {
      SourcesKept(st, st1);
    }
    hide Inv;
  }

  lemma ApplyKeeps(st: State, step: Step)
    requires Inv(st)
    ensures Inv(Apply(st, step))
  {
    hide Inv, ImportBatch, Record, LiveEdit, Delete, Edited, PushedEditApplies, Resolve, Purge, DropSources;
    match step
    case DropSource(s) => DropKeeps(st, {s});
    case PushBatch(key, b, now) => ImportKeeps(st, key, b, now);
    case LiveRecord(s, m) => if s in st.sources { RecordKeeps(st, s, st.sources[s].channel, m, None, None); }
    case LiveChange(s, m, now) => if s in st.sources { LiveEditKeeps(st, s, st.sources[s].channel, m, now); }
    case LiveRemoval(s, ref, now) => DeleteKeeps(st, s, ref, now);
    case KeylessEdit(id, text, at) => if id.at in st.messages { EditKeeps(st, id.at, text, at, None, None); }
    case Review(id, token, action, now) => ResolveKeeps(st, id, token, action, now);
    case PurgeKey(key, expected) => PurgeKeeps(st, key, expected);
    case _ => AdminKeeps(st, step);
  }

  lemma {:induction false} RunKeeps(st: State, steps: seq<Step>)
    requires Inv(st)
    ensures Inv(Run(st, steps))
  {
    hide Inv, Apply;
    if steps != [] {
      RunKeeps(st, steps[..|steps| - 1]);
      ApplyKeeps(Run(st, steps[..|steps| - 1]), steps[|steps| - 1]);
    }
  }

  /** From an empty archive, whatever the steps: disputes are consistent and within capacity. */
  lemma ReachableConsistent(steps: seq<Step>)
    ensures Inv(Run(EMPTY, steps))
  {
    assert Refs(EMPTY.messages) == {};
    RunKeeps(EMPTY, steps);
  }
}
