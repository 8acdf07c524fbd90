/** The budget importBatch carries through a batch decides exactly as recounting the table would. */
module RunningBudget {
  import opened Prelude
  import opened ArchiveTypes
  import opened Ingest
  import opened Disputes
  import opened Import
  import opened Capacity
  import opened Runs
  import opened Consistency

  /** The batch with every capture recounting message_disputes before it inserts. */
  ghost function ImportRecounting(st: State, key: KeyId, b: Batch, now: Time): (State, Result<ImportResult, ImportError>) {
    if !MayPush(st, key) then (st, Err(KeyRevoked))
    else
      var (st1, src) := UpsertSource(st, key, b.source);
      var ctx := Ctx(src, b.source.channel, key, now);
      match Entries(Start(st1, None), ctx, b.messages)
      case Refused => (st, Err(DisputeCapacity))
      case Folded(a) =>
        var (st2, r) := Finish(a, ctx, b);
        (st2, Ok(r))
  }

  lemma CaptureRefines(st: State, p: Place, key: KeyId, text: Option<string>, now: Time, usage: Budget)
    requires AtMost(Pending(st.messages), usage)
    ensures var cached := Capture(st, p, key, text, now, Some(usage)); var recounted := Capture(st, p, key, text, now, None);
      (cached.Captured? <==> recounted.Captured?) && (cached.Captured? ==> cached.st == recounted.st && recounted.usage.None?)
  {
    hide Pending;
  }

  lemma OneEntryRefines(a: Acc, ctx: Ctx, e: Entry)
    requires a.usage.Some? && BudgetOk(a)
    ensures var cached := OneEntry(a, ctx, e); var recounted := OneEntry(a.(usage := None), ctx, e);
      (cached.Folded? <==> recounted.Folded?) && (cached.Folded? ==> cached.acc.(usage := None) == recounted.acc)
  {
    hide Pending, Capture, PushedEdit;
    var st1 := Record(a.st, ctx.src, ctx.channel, ToIncoming(e), Some(ctx.key), e.editedAt).0;
    if Place(ctx.src, e.chat, e.ext) in a.st.messages {
      CaptureRefines(st1, Place(ctx.src, e.chat, e.ext), ctx.key, e.text, ctx.now, a.usage.value);
    }
  }

  lemma {:induction false} EntriesRefine(a: Acc, ctx: Ctx, ms: seq<Entry>)
    requires Inv(a.st) && a.usage.Some? && BudgetOk(a) && ctx.src in a.st.sources
    ensures var cached := Entries(a, ctx, ms); var recounted := Entries(a.(usage := None), ctx, ms);
      (cached.Folded? <==> recounted.Folded?) && (cached.Folded? ==> cached.acc.(usage := None) == recounted.acc)
  {
    hide OneEntry, Inv, BudgetOk;
    if ms != [] {
      EntriesRefine(a, ctx, ms[..|ms| - 1]);
      EntriesKeep(a, ctx, ms[..|ms| - 1]);
      var cached := Entries(a, ctx, ms[..|ms| - 1]);
      if cached.Folded? {
        OneEntryRefines(cached.acc, ctx, ms[|ms| - 1]);
      }
    }
  }

  /** Caching refines recounting: same verdict, same tables, same result. */
  lemma BudgetRefinesRecount(st: State, key: KeyId, b: Batch, now: Time)
    requires Inv(st)
    ensures ImportBatch(st, key, b, now) == ImportRecounting(st, key, b, now)
  {
    hide Entries, Inv, Pending, UpsertSource, Deletes, Stamp, MarkPushes;
    if MayPush(st, key) {
      UpsertSourceKeeps(st, key, b.source);
      var (st1, src) := UpsertSource(st, key, b.source);
      EntriesRefine(Start(st1, Some(Pending(st1.messages))), Ctx(src, b.source.channel, key, now), b.messages);
    }
  }

  /** After every entry the running budget is at least the true count and byte total. */
  lemma RunningBudgetCovers(st: State, key: KeyId, b: Batch, now: Time, i: nat)
    requires Inv(st) && i <= |b.messages|
    ensures var (st1, src) := UpsertSource(st, key, b.source);
      var f := Entries(Start(st1, Some(Pending(st1.messages))), Ctx(src, b.source.channel, key, now), b.messages[..i]);
      f.Folded? ==> f.acc.usage.Some? && AtMost(Pending(f.acc.st.messages), f.acc.usage.value)
  {
    hide Entries, Inv, Pending;
    UpsertSourceKeeps(st, key, b.source);
    var (st1, src) := UpsertSource(st, key, b.source);
    EntriesKeep(Start(st1, Some(Pending(st1.messages))), Ctx(src, b.source.channel, key, now), b.messages[..i]);
  }
}
