/** Deleted stays deleted: a tombstoned row never changes again while its source exists. */
module Tombstones {
  import opened Prelude
  import opened ArchiveTypes
  import opened Disputes
  import opened Import
  import opened Runs
  import opened Consistency

  ghost predicate Buried(st: State, p: Place) {
    p in st.messages && st.messages[p].row.deletedAt.Some?
  }

  lemma OneEntryBuried(a: Acc, ctx: Ctx, e: Entry, p: Place)
    requires Buried(a.st, p) && OneEntry(a, ctx, e).Folded?
    ensures var st1 := OneEntry(a, ctx, e).acc.st; p in st1.messages && st1.messages[p] == a.st.messages[p]
  {
    hide Pending, Full;
  }

  lemma {:induction false} EntriesBuried(a: Acc, ctx: Ctx, ms: seq<Entry>, p: Place)
    requires Buried(a.st, p) && Entries(a, ctx, ms).Folded?
    ensures var st1 := Entries(a, ctx, ms).acc.st; p in st1.messages && st1.messages[p] == a.st.messages[p]
  {
    hide OneEntry;
    if ms != [] {
      EntriesBuried(a, ctx, ms[..|ms| - 1], p);
      OneEntryBuried(Entries(a, ctx, ms[..|ms| - 1]).acc, ctx, ms[|ms| - 1], p);
    }
  }

  lemma {:induction false} DeletesBuried(st: State, src: SourceId, ds: seq<Deletion>, now: Time, p: Place)
    requires Buried(st, p)
    ensures var st1 := Deletes(st, src, ds, now).0; p in st1.messages && st1.messages[p] == st.messages[p]
  {
    if ds != [] {
      DeletesBuried(st, src, ds[..|ds| - 1], now, p);
    }
  }

  lemma ImportBuried(st: State, key: KeyId, b: Batch, now: Time, p: Place)
    requires Buried(st, p)
    ensures var st1 := ImportBatch(st, key, b, now).0; p in st1.messages && st1.messages[p] == st.messages[p]
  {
    hide Entries, Deletes, Pending;
    if MayPush(st, key) {
      var (st1, src) := UpsertSource(st, key, b.source);
      var ctx := Ctx(src, b.source.channel, key, now);
      var f := Entries(Start(st1, Some(Pending(st1.messages))), ctx, b.messages);
      if f.Folded? {
        EntriesBuried(Start(st1, Some(Pending(st1.messages))), ctx, b.messages, p);
        DeletesBuried(f.acc.st, src, b.deletes, now, p);
      }
    }
  }

  lemma PurgeBuried(st: State, key: KeyId, expected: Option<Preview>, p: Place)
    requires Inv(st) && Buried(st, p)
    ensures var st1 := Purge(st, key, expected).0; p in st1.messages && st1.messages[p] == st.messages[p]
  {
    hide LinksOk, SourcesUnique, WithinCapacity, TouchedSources, PreviewOf;
    assert SlotOk(st.messages[p], st.serial);
    assert st.messages[p].cands == map[];
    assert WithoutKey(st.messages[p], key) == st.messages[p];
  }

  lemma StepBuried(st: State, step: Step, p: Place)
    requires Inv(st) && Buried(st, p) && step != DropSource(p.source)
    ensures var st1 := Apply(st, step); p in st1.messages && st1.messages[p] == st.messages[p]
  {
    hide Inv, ImportBatch, Purge, TokenOf;
    match step
    case PushBatch(key, b, now) => ImportBuried(st, key, b, now, p);
    case PurgeKey(key, expected) => PurgeBuried(st, key, expected, p);
    case _ =>
  }

  /** No step but dropping its source ever revives, rewrites, disputes or removes a tombstone. */
  lemma {:induction false} BuriedForever(st: State, steps: seq<Step>, p: Place)
    requires Inv(st) && Buried(st, p) && DropSource(p.source) !in steps
    ensures var end := Run(st, steps);
      Inv(end) && p in end.messages && end.messages[p] == st.messages[p] && p.source in end.sources
  {
    hide Apply;
    if steps != [] {
      var mid := Run(st, steps[..|steps| - 1]);
      BuriedForever(st, steps[..|steps| - 1], p);
      StepBuried(mid, steps[|steps| - 1], p);
      ApplyKeeps(mid, steps[|steps| - 1]);
    }
  }
}
