/** Over any run of the archive a chat's activity only moves forward, and a chat that is gone does not come back. */
module ChatActivity {
  import opened Prelude
  import opened ArchiveTypes
  import opened Ingest
  import opened Disputes
  import opened Import
  import opened Runs
  import opened Consistency

  predicate ChatMoves(c: Chat, d: Chat) {
    d.lastMessageAt >= c.lastMessageAt && d.channel == c.channel && d.kind == c.kind
  }

  /** Chats stay, unless their source goes; and a source that is gone does not come back. */
  ghost predicate RoomsMove(st: State, end: State) {
    && st.serial <= end.serial
    && (forall c :: c in st.chats ==> if c in end.chats then ChatMoves(st.chats[c], end.chats[c]) else c.source !in end.sources)
    && (forall s: SourceId :: s < st.serial && s !in st.sources ==> s !in end.sources)
  }

  lemma RoomsMoveTrans(a: State, b: State, c: State)
    requires Inv(a) && Inv(b) && Inv(c) && RoomsMove(a, b) && RoomsMove(b, c)
    ensures RoomsMove(a, c)
  {
    hide SlotsOk, SourcesUnique, WithinCapacity;
    forall r | r in a.chats && r !in b.chats ensures r.source !in c.sources && r !in c.chats {
      assert r.source in a.sources && r.source < a.serial;
    }
  }

  /** Chats are only added or moved forward. */
  ghost predicate OnlyForward(chats: map<ChatKey, Chat>, chats1: map<ChatKey, Chat>) {
    forall c :: c in chats ==> c in chats1 && ChatMoves(chats[c], chats1[c])
  }

  lemma OneEntryForward(a: Acc, ctx: Ctx, e: Entry)
    requires OneEntry(a, ctx, e).Folded?
    ensures OnlyForward(a.st.chats, OneEntry(a, ctx, e).acc.st.chats)
  {
    hide Pending, Full, PushedEditApplies;
  }

  lemma {:induction false} EntriesForward(a: Acc, ctx: Ctx, ms: seq<Entry>)
    requires Entries(a, ctx, ms).Folded?
    ensures OnlyForward(a.st.chats, Entries(a, ctx, ms).acc.st.chats)
  {
    hide OneEntry;
    if ms != [] {
      EntriesForward(a, ctx, ms[..|ms| - 1]);
      OneEntryForward(Entries(a, ctx, ms[..|ms| - 1]).acc, ctx, ms[|ms| - 1]);
    }
  }

  lemma UpsertKeepsSources(st: State, key: KeyId, ref: SourceRef)
    ensures var st1 := UpsertSource(st, key, ref).0;
      st1.chats == st.chats && st.serial <= st1.serial && forall s :: s in st1.sources ==> s in st.sources || s == st.serial
  {
  }

  lemma {:induction false} DeletesKeepSources(st: State, src: SourceId, ds: seq<Deletion>, now: Time)
    ensures var st1 := Deletes(st, src, ds, now).0; st1 == st.(messages := st1.messages)
  {
    if ds != [] {
      DeletesKeepSources(st, src, ds[..|ds| - 1], now);
    }
  }

  lemma OneEntrySources(a: Acc, ctx: Ctx, e: Entry)
    requires OneEntry(a, ctx, e).Folded?
    ensures var st1 := OneEntry(a, ctx, e).acc.st; st1.sources == a.st.sources && st1.keys == a.st.keys && a.st.serial <= st1.serial
  {
    hide Pending, Full, PushedEditApplies;
  }

  lemma {:induction false} EntriesSources(a: Acc, ctx: Ctx, ms: seq<Entry>)
    requires Entries(a, ctx, ms).Folded?
    ensures var st1 := Entries(a, ctx, ms).acc.st; st1.sources == a.st.sources && st1.keys == a.st.keys && a.st.serial <= st1.serial
  {
    hide OneEntry;
    if ms != [] {
      EntriesSources(a, ctx, ms[..|ms| - 1]);
      OneEntrySources(Entries(a, ctx, ms[..|ms| - 1]).acc, ctx, ms[|ms| - 1]);
    }
  }

  lemma ImportMoves(st: State, key: KeyId, b: Batch, now: Time)
    ensures RoomsMove(st, ImportBatch(st, key, b, now).0)
  {
    hide Entries, Deletes, Pending, UpsertSource;
    if ImportBatch(st, key, b, now).1.Ok? {
      var (st1, src) := UpsertSource(st, key, b.source);
      UpsertKeepsSources(st, key, b.source);
      var ctx := Ctx(src, b.source.channel, key, now);
      var a := Start(st1, Some(Pending(st1.messages)));
      EntriesForward(a, ctx, b.messages);
      EntriesSources(a, ctx, b.messages);
      DeletesKeepSources(Entries(a, ctx, b.messages).acc.st, src, b.deletes, now);
    }
  }

  lemma DropMoves(st: State, mid: State, gone: set<SourceId>)
    requires mid.chats == st.chats && mid.sources == st.sources && mid.serial == st.serial
    ensures RoomsMove(st, DropSources(mid, gone))
  {
  }

  lemma PurgeMoves(st: State, key: KeyId, expected: Option<Preview>)
    ensures RoomsMove(st, Purge(st, key, expected).0)
  {
    hide PurgedMessages, PreviewOf, Swept, DropSources;
    if Purge(st, key, expected).0 != st {
      var messages := PurgedMessages(st.messages, key);
      DropMoves(st, st.(messages := messages), PushOnly(st.sources, Swept(PreviewOf(st.messages, key), messages)));
    }
  }

  lemma MessagesOnly(st: State, end: State)
    requires end == st.(messages := end.messages)
    ensures RoomsMove(st, end)
  {
  }

  lemma RecordMoves(st: State, src: SourceId, channel: string, m: Incoming)
    ensures RoomsMove(st, Record(st, src, channel, m, None, None).0)
    ensures RoomsMove(st, UpsertChat(st, src, channel, m))
  {
  }

  lemma LiveEditMoves(st: State, src: SourceId, channel: string, m: Incoming, now: Time)
    ensures RoomsMove(st, LiveEdit(st, src, channel, m, now))
  {
    hide AuthoredBy;
  }

  lemma ReviewMoves(st: State, id: MessageId, token: Token, action: Action, now: Time)
    ensures RoomsMove(st, Resolve(st, id, token, action, now).0)
  {
    hide TokenOf, Settled;
    MessagesOnly(st, Resolve(st, id, token, action, now).0);
  }

  /** Keys and new sources: no chat moves. */
  lemma AdminMoves(st: State, step: Step)
    requires Inv(st) && (step.MintKey? || step.RevokeKey? || step.OpenLive? || step.RevokeSource?)
    ensures RoomsMove(st, Apply(st, step))
  {
    hide SlotsOk, SourcesUnique, WithinCapacity;
  }

  lemma StepMoves(st: State, step: Step)
    requires Inv(st)
    ensures RoomsMove(st, Apply(st, step))
  {
    hide Inv, RoomsMove, ImportBatch, Purge, DropSources, Record, LiveEdit, Resolve, DeleteHits, PushedEditApplies;
    StaysPut(st);
    match step
    case DropSource(s) => DropMoves(st, st, {s});
    case PushBatch(key, b, now) => ImportMoves(st, key, b, now);
    case LiveRecord(s, m) => if s in st.sources { RecordMoves(st, s, st.sources[s].channel, m); }
    case LiveChange(s, m, now) => if s in st.sources { LiveEditMoves(st, s, st.sources[s].channel, m, now); }
    case LiveRemoval(s, ref, now) => MessagesOnly(st, Apply(st, step));
    case KeylessEdit(id, text, at) => MessagesOnly(st, Apply(st, step));
    case Review(id, token, action, now) => ReviewMoves(st, id, token, action, now);
    case PurgeKey(key, expected) => PurgeMoves(st, key, expected);
    case _ => AdminMoves(st, step);
  }

  lemma {:induction false} RunMoves(st: State, steps: seq<Step>)
    requires Inv(st)
    ensures RoomsMove(st, Run(st, steps))
  {
    hide Inv, RoomsMove, Apply;
    if steps == [] {
      StaysPut(st);
    } else {
      var mid, step := Run(st, steps[..|steps| - 1]), steps[|steps| - 1];
      RunMoves(st, steps[..|steps| - 1]);
      RunKeeps(st, steps[..|steps| - 1]);
      ApplyKeeps(mid, step);
      StepMoves(mid, step);
      RoomsMoveTrans(st, mid, Apply(mid, step));
    }
  }

  lemma StaysPut(st: State)
    ensures RoomsMove(st, st)
  {
  }
}
