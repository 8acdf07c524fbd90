/** An accepted batch accounts for every entry, and for every live row it adds or buries. */
module Conservation {
  import opened Prelude
  import opened ArchiveTypes
  import opened Ingest
  import opened Disputes
  import opened Import
  import opened PushFold

  function LiveIn(messages: map<Place, Slot>, src: SourceId): set<Place> {
    set p | p in messages && p.source == src && messages[p].row.deletedAt.None?
  }

  ghost predicate Tallied(a: Acc, before: State, ctx: Ctx, n: nat) {
    && a.inserted + a.duplicates == n
    && a.edited + a.conflicts <= a.duplicates
    && |a.conflicting| == (if a.conflicts < MAX_PROBLEMS then a.conflicts else MAX_PROBLEMS)
    && |LiveIn(a.st.messages, ctx.src)| == |LiveIn(before.messages, ctx.src)| + a.inserted
  }

  function LiveAt(c: Option<Core>): nat {
    if c.Some? && c.value.deletedAt.None? then 1 else 0
  }

  lemma LiveMember(st: State, src: SourceId, p: Place)
    ensures p in LiveIn(st.messages, src) <==> p.source == src && LiveAt(CoreAt(st, p)) == 1
  {
  }

  lemma CountOne(s: set<Place>, rest: set<Place>, p: Place)
    requires s - {p} == rest && p !in rest
    ensures |s| == |rest| + if p in s then 1 else 0
  {
    assert s == if p in s then rest + {p} else rest;
  }

  /** Changing one message changes the count of live rows by that message alone. */
  lemma LiveChange(st: State, st1: State, p: Place)
    requires forall q :: q != p ==> CoreAt(st1, q) == CoreAt(st, q)
    ensures |LiveIn(st1.messages, p.source)| == |LiveIn(st.messages, p.source)| + LiveAt(CoreAt(st1, p)) - LiveAt(CoreAt(st, p))
  {
    var live, live1 := LiveIn(st.messages, p.source), LiveIn(st1.messages, p.source);
    hide LiveIn, CoreAt;
    forall q ensures q in live1 - {p} <==> q in live - {p} {
      LiveMember(st, p.source, q);
      LiveMember(st1, p.source, q);
    }
    assert live1 - {p} == live - {p};
    CountOne(live, live - {p}, p);
    CountOne(live1, live - {p}, p);
    LiveMember(st, p.source, p);
    LiveMember(st1, p.source, p);
  }

  lemma OneEntryLive(a: Acc, ctx: Ctx, e: Entry)
    requires OneEntry(a, ctx, e).Folded?
    ensures var f := OneEntry(a, ctx, e).acc;
      |LiveIn(f.st.messages, ctx.src)| == |LiveIn(a.st.messages, ctx.src)| + (f.inserted - a.inserted)
  {
    var f := OneEntry(a, ctx, e).acc;
    assert f.inserted - a.inserted == (if PlaceIn(ctx.src, e) in a.st.messages then 0 else 1) by {
      hide PushedEdit, Capture;
    }
    hide OneEntry, LiveIn;
    forall q ensures CoreAt(f.st, q) ==
      if q == PlaceIn(ctx.src, e) then CoreStep(CoreAt(a.st, q), e, ctx.key) else CoreAt(a.st, q)
    {
      OneEntryCore(a, ctx, e, q);
    }
    LiveChange(a.st, f.st, PlaceIn(ctx.src, e));
  }

  lemma OneEntryTally(a: Acc, before: State, ctx: Ctx, e: Entry, n: nat)
    requires Tallied(a, before, ctx, n) && OneEntry(a, ctx, e).Folded?
    ensures Tallied(OneEntry(a, ctx, e).acc, before, ctx, n + 1)
  {
    hide LiveIn, Capture, PushedEdit;
    OneEntryLive(a, ctx, e);
  }

  lemma {:induction false} EntriesTally(a: Acc, ctx: Ctx, ms: seq<Entry>)
    requires a.inserted == a.duplicates == a.edited == a.conflicts == 0 && a.conflicting == []
    requires Entries(a, ctx, ms).Folded?
    ensures Tallied(Entries(a, ctx, ms).acc, a.st, ctx, |ms|)
  {
    if ms != [] {
      hide Tallied, OneEntry;
      EntriesTally(a, ctx, ms[..|ms| - 1]);
      OneEntryTally(Entries(a, ctx, ms[..|ms| - 1]).acc, a.st, ctx, ms[|ms| - 1], |ms| - 1);
    }
  }

  lemma DeleteLive(st: State, src: SourceId, ref: DeleteRef, now: Time)
    ensures var (st1, n) := Delete(st, src, ref, now);
      |LiveIn(st1.messages, src)| + n == |LiveIn(st.messages, src)|
  {
    hide DeleteTargets, AuthoredBy;
    var st1 := Delete(st, src, ref, now).0;
    var hit := set p | p in st.messages && DeleteHits(st, src, ref, p);
    assert LiveIn(st.messages, src) == LiveIn(st1.messages, src) + hit;
  }

  lemma {:induction false} DeletesLive(st: State, src: SourceId, ds: seq<Deletion>, now: Time)
    ensures var (st1, n) := Deletes(st, src, ds, now);
      |LiveIn(st1.messages, src)| + n == |LiveIn(st.messages, src)|
  {
    if ds != [] {
      DeletesLive(st, src, ds[..|ds| - 1], now);
      var d := ds[|ds| - 1];
      DeleteLive(Deletes(st, src, ds[..|ds| - 1], now).0, src, DeleteRef(Some(d.chat), d.ext, None), now);
      hide LiveIn, Delete;
    }
  }

  lemma ImportConserves(st: State, key: KeyId, b: Batch, now: Time)
    requires ImportBatch(st, key, b, now).1.Ok?
    ensures var (st1, out) := ImportBatch(st, key, b, now); var r := out.value;
      && r.inserted + r.duplicates == |b.messages|
      && r.edited + r.conflicts <= r.duplicates
      && |r.conflicting| == (if r.conflicts < MAX_PROBLEMS then r.conflicts else MAX_PROBLEMS)
      && |LiveIn(st1.messages, r.source)| == |LiveIn(st.messages, r.source)| + r.inserted - r.deleted
  {
    hide LiveIn, Entries, Deletes, Pending;
    var (st1, src) := UpsertSource(st, key, b.source);
    var ctx := Ctx(src, b.source.channel, key, now);
    EntriesTally(Start(st1, Some(Pending(st1.messages))), ctx, b.messages);
    DeletesLive(Entries(Start(st1, Some(Pending(st1.messages))), ctx, b.messages).acc.st, src, b.deletes, now);
  }
}
