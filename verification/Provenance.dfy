/** Where everything in the archive came from: each text, each credit, each candidate and each message's own columns. */
module Provenance {
  import opened Prelude
  import opened ArchiveTypes
  import opened Ingest
  import opened Disputes
  import opened Import
  import opened Runs
  import opened ReviewLaws
  import opened Consistency

  // ---- what a step may have carried ----

  predicate Names(e: Entry, p: Place) {
    e.chat == p.chat && e.ext == p.ext
  }

  predicate Addresses(src: SourceId, m: Incoming, p: Place) {
    src == p.source && m.chat == p.chat && m.ext == p.ext
  }

  /** An accepted push by this key, into the source of the place, with an entry for it carrying this text. */
  ghost predicate Pushes(st: State, step: Step, p: Place, key: KeyId, text: Option<string>) {
    step.PushBatch? && step.key == key &&
    var out := ImportBatch(st, key, step.batch, step.now).1;
    out.Ok? && out.value.source == p.source && exists e :: e in step.batch.messages && Names(e, p) && e.text == text
  }

  predicate Reports(step: Step, p: Place, text: Option<string>) {
    (step.LiveRecord? || step.LiveChange?) && Addresses(step.src, step.m, p) && step.m.text == text
  }

  predicate Rewrites(step: Step, p: Place, text: Option<string>) {
    step.KeylessEdit? && step.id.at == p && step.text == text
  }

  predicate SameCredit(r: Row, t: Row) {
    t.text == r.text && t.contentKey == r.contentKey && t.contentActor == r.contentActor
  }

  /** A row's text and credit after one step: as before, pushed, reported by the channel, rewritten, or accepted. */
  ghost predicate TextFrom(st: State, step: Step, p: Place, t: Row) {
    || (p in st.messages && SameCredit(st.messages[p].row, t))
    || (t.contentKey.Some? && t.contentActor == Some(ByKey) && Pushes(st, step, p, t.contentKey.value, t.text))
    || (t.contentKey.None? && t.contentActor == Some(ByChannel) && Reports(step, p, t.text))
    || (t.contentKey.None? && t.contentActor.None? && Rewrites(step, p, t.text))
    || (p in st.messages && t.contentKey.Some? && t.contentActor == Some(ByKey) &&
        exists k :: k in st.messages[p].cands && k.key == t.contentKey.value && k.text == t.text)
  }

  ghost predicate CandidatesFrom(st: State, step: Step, p: Place, cands: map<CandKey, Cand>) {
    forall k :: k in cands ==> (p in st.messages && k in st.messages[p].cands) || Pushes(st, step, p, k.key, k.text)
  }

  ghost predicate StepFrom(st: State, step: Step, end: State) {
    forall p :: p in end.messages ==> TextFrom(st, step, p, end.messages[p].row) && CandidatesFrom(st, step, p, end.messages[p].cands)
  }

  // ---- one batch ----

  ghost predicate EntryFrom(was: Option<Slot>, t: Slot, ms: seq<Entry>, p: Place, key: KeyId) {
    && ((was.Some? && SameCredit(was.value.row, t.row)) ||
        (t.row.contentKey == Some(key) && t.row.contentActor == Some(ByKey) && exists e :: e in ms && Names(e, p) && e.text == t.row.text))
    && (forall k :: k in t.cands ==>
          (was.Some? && k in was.value.cands) || (k.key == key && exists e :: e in ms && Names(e, p) && e.text == k.text))
  }

  lemma RecordAt(st: State, src: SourceId, channel: string, m: Incoming, key: Option<KeyId>, editedAt: Option<Time>, p: Place)
    ensures var end := Record(st, src, channel, m, key, editedAt).0;
      && (p in st.messages ==> Get(end.messages, p) == Get(st.messages, p))
      && (p in end.messages && p !in st.messages ==>
            var t := end.messages[p];
            Addresses(src, m, p) && t.row.text == m.text && t.row.contentKey == key && t.cands == map[] &&
            t.row.contentActor == Some(if key.Some? then ByKey else ByChannel))
  {
    hide ChatAfter;
  }

  lemma PushedEditAt(st: State, q: Place, text: Option<string>, at: Time, key: KeyId, p: Place)
    ensures var end := PushedEdit(st, q, text, at, Some(key)).0;
      && (p in end.messages <==> p in st.messages)
      && (p in end.messages && end.messages[p] != st.messages[p] ==>
            var t := end.messages[p].row;
            p == q && t.text == text && t.contentKey == Some(key) && t.contentActor == Some(ByKey) && end.messages[p].cands == map[])
  {
    hide PushedEditApplies;
  }

  lemma CaptureAt(st: State, q: Place, key: KeyId, text: Option<string>, now: Time, usage: Option<Budget>, p: Place)
    requires Capture(st, q, key, text, now, usage).Captured?
    ensures var end := Capture(st, q, key, text, now, usage).st;
      && (p in end.messages <==> p in st.messages)
      && (p in end.messages && end.messages[p] != st.messages[p] ==> p == q && SameCredit(st.messages[p].row, end.messages[p].row))
      && (p in end.messages ==> forall k :: k in end.messages[p].cands && k !in st.messages[p].cands ==> p == q && k.key == key && k.text == text)
  {
    hide Pending, Full;
  }

  lemma OneEntryFrom(a: Acc, ctx: Ctx, e: Entry, p: Place)
    requires OneEntry(a, ctx, e).Folded? && p in OneEntry(a, ctx, e).acc.st.messages
    ensures var t := OneEntry(a, ctx, e).acc.st.messages[p];
      if p.source == ctx.src then EntryFrom(Get(a.st.messages, p), t, [e], p, ctx.key) else Get(a.st.messages, p) == Some(t)
  {
    hide Record, PushedEdit, Capture;
    assert e in [e];
    var q := Place(ctx.src, e.chat, e.ext);
    RecordAt(a.st, ctx.src, ctx.channel, ToIncoming(e), Some(ctx.key), e.editedAt, p);
    var st1 := Record(a.st, ctx.src, ctx.channel, ToIncoming(e), Some(ctx.key), e.editedAt).0;
    if e.editedAt.Some? {
      PushedEditAt(st1, q, e.text, e.editedAt.value, ctx.key, p);
    } else if Capture(st1, q, ctx.key, e.text, ctx.now, a.usage).Captured? {
      CaptureAt(st1, q, ctx.key, e.text, ctx.now, a.usage, p);
    }
  }

  lemma EntryFromTrans(was: Option<Slot>, mid: Option<Slot>, t: Slot, ms: seq<Entry>, more: seq<Entry>, all: seq<Entry>, p: Place, key: KeyId)
    requires mid.Some? ==> EntryFrom(was, mid.value, ms, p, key)
    requires mid.None? ==> was.None?
    requires EntryFrom(mid, t, more, p, key) && forall e :: e in ms || e in more ==> e in all
    ensures EntryFrom(was, t, all, p, key)
  {
  }

  lemma {:induction false} EntriesFrom(a: Acc, ctx: Ctx, ms: seq<Entry>, p: Place)
    requires Entries(a, ctx, ms).Folded?
    ensures p in a.st.messages ==> p in Entries(a, ctx, ms).acc.st.messages
    ensures p in Entries(a, ctx, ms).acc.st.messages ==>
      var t := Entries(a, ctx, ms).acc.st.messages[p];
      if p.source == ctx.src then EntryFrom(Get(a.st.messages, p), t, ms, p, ctx.key) else Get(a.st.messages, p) == Some(t)
  {
    hide OneEntry, EntryFrom;
    if ms == [] {
      if p in a.st.messages {
        EntryFromSelf(a.st.messages[p], ms, p, ctx.key);
      }
    } else {
      var front, e := ms[..|ms| - 1], ms[|ms| - 1];
      var mid := Entries(a, ctx, front).acc;
      EntriesFrom(a, ctx, front, p);
      if p in mid.st.messages {
        OneEntryStays(mid, ctx, e, p);
      }
      var end := OneEntry(mid, ctx, e).acc;
      if p in end.st.messages {
        OneEntryFrom(mid, ctx, e, p);
        if p.source == ctx.src {
          EntryFromTrans(Get(a.st.messages, p), Get(mid.st.messages, p), end.st.messages[p], front, [e], ms, p, ctx.key);
        }
      }
    }
  }

  lemma EntryFromSelf(s: Slot, ms: seq<Entry>, p: Place, key: KeyId)
    ensures EntryFrom(Some(s), s, ms, p, key)
  {
  }

  lemma OneEntryStays(a: Acc, ctx: Ctx, e: Entry, p: Place)
    requires OneEntry(a, ctx, e).Folded? && p in a.st.messages
    ensures p in OneEntry(a, ctx, e).acc.st.messages
  {
    hide Pending, Full, ChatAfter;
  }

  lemma {:induction false} DeletesFrom(st: State, src: SourceId, ds: seq<Deletion>, now: Time)
    ensures var end := Deletes(st, src, ds, now).0;
      && end.messages.Keys == st.messages.Keys
      && (forall p :: p in end.messages ==> SameCredit(st.messages[p].row, end.messages[p].row))
      && (forall p, k :: p in end.messages && k in end.messages[p].cands ==> k in st.messages[p].cands)
  {
    hide DeleteHits;
    if ds != [] {
      DeletesFrom(st, src, ds[..|ds| - 1], now);
    }
  }

  lemma ImportFrom(st: State, step: Step)
    requires step.PushBatch?
    ensures StepFrom(st, step, Apply(st, step))
  {
    hide Entries, Deletes, Pending, EntryFrom;
    var end := Apply(st, step);
    if ImportBatch(st, step.key, step.batch, step.now).1.Ok? {
      var (st1, src) := UpsertSource(st, step.key, step.batch.source);
      assert st1.messages == st.messages;
      var ctx := Ctx(src, step.batch.source.channel, step.key, step.now);
      var a := Start(st1, Some(Pending(st1.messages)));
      var f := Entries(a, ctx, step.batch.messages).acc;
      DeletesFrom(f.st, src, step.batch.deletes, step.now);
      var mid := Deletes(f.st, src, step.batch.deletes, step.now).0;
      assert end.messages == mid.messages;
      hide UpsertSource, ImportBatch, TextFrom, CandidatesFrom, Apply;
      forall p | p in end.messages
        ensures TextFrom(st, step, p, end.messages[p].row) && CandidatesFrom(st, step, p, end.messages[p].cands)
      {
        EntriesFrom(a, ctx, step.batch.messages, p);
        PushedFrom(st, step, p, src, f.st.messages[p], end.messages[p]);
      }
    }
  }

  lemma PushedFrom(st: State, step: Step, p: Place, src: SourceId, f: Slot, t: Slot)
    requires step.PushBatch? && ImportBatch(st, step.key, step.batch, step.now).1.Ok?
    requires ImportBatch(st, step.key, step.batch, step.now).1.value.source == src
    requires if p.source == src then EntryFrom(Get(st.messages, p), f, step.batch.messages, p, step.key) else Get(st.messages, p) == Some(f)
    requires SameCredit(f.row, t.row) && forall k :: k in t.cands ==> k in f.cands
    ensures TextFrom(st, step, p, t.row) && CandidatesFrom(st, step, p, t.cands)
  {
    hide ImportBatch;
  }

  // ---- every other step ----

  lemma ReviewFrom(st: State, step: Step)
    requires Inv(st) && step.Review?
    ensures StepFrom(st, step, Apply(st, step))
  {
    hide TokenOf, Inv, Resolve, Closes, DatedFrom;
    ReviewTouchesOne(st, step.id, step.token, step.action, step.now);
    if Resolve(st, step.id, step.token, step.action, step.now).1 == Resolved {
      var s, t := st.messages[step.id.at], Apply(st, step).messages[step.id.at];
      if step.action.Keep? {
        KeepKeeps(st, step.id, step.token, step.now);
      } else if step.action.Remove? {
        RemoveBuries(st, step.id, step.token, step.now);
      } else {
        AcceptTakes(st, step.id, step.token, step.action.candidate, step.now);
        var k :| k in s.cands && s.cands[k].serial == step.action.candidate;
      }
      ClosedHasNone(s, t);
    }
  }

  lemma ClosedHasNone(s: Slot, t: Slot)
    requires Closes(s, t)
    ensures t.cands == map[]
  {
  }

  lemma PurgeFrom(st: State, step: Step)
    requires step.PurgeKey?
    ensures StepFrom(st, step, Apply(st, step))
  {
    hide PreviewOf, TouchedSources, Emptied;
  }

  lemma LiveEditFrom(st: State, src: SourceId, channel: string, m: Incoming, now: Time, p: Place)
    requires p in LiveEdit(st, src, channel, m, now).messages
    ensures var t := LiveEdit(st, src, channel, m, now).messages[p];
      Get(st.messages, p) == Some(t) ||
      (Addresses(src, m, p) && t.row.text == m.text && t.row.contentKey.None? && t.row.contentActor == Some(ByChannel) && t.cands == map[])
  {
    hide AuthoredBy, ChatAfter, Record;
    var st1 := UpsertChat(st, src, channel, m);
    RecordAt(st1, src, channel, m, None, None, p);
  }

  lemma LiveFrom(st: State, step: Step)
    requires step.LiveRecord? || step.LiveChange?
    ensures StepFrom(st, step, Apply(st, step))
  {
    hide Record, LiveEdit, Addresses;
    var end := Apply(st, step);
    if step.src in st.sources {
      forall p | p in end.messages ensures TextFrom(st, step, p, end.messages[p].row) && CandidatesFrom(st, step, p, end.messages[p].cands) {
        if step.LiveRecord? {
          RecordAt(st, step.src, st.sources[step.src].channel, step.m, None, None, p);
        } else {
          LiveEditFrom(st, step.src, st.sources[step.src].channel, step.m, step.now, p);
        }
      }
    }
  }

  lemma OtherFrom(st: State, step: Step)
    requires !step.PushBatch? && !step.Review? && !step.PurgeKey? && !step.LiveRecord? && !step.LiveChange?
    ensures StepFrom(st, step, Apply(st, step))
  {
    hide DeleteHits, PushedEditApplies;
  }

  lemma AnyStepFrom(st: State, step: Step)
    requires Inv(st)
    ensures StepFrom(st, step, Apply(st, step))
  {
    hide Apply, StepFrom, Inv;
    if step.PushBatch? {
      ImportFrom(st, step);
    } else if step.Review? {
      ReviewFrom(st, step);
    } else if step.PurgeKey? {
      PurgeFrom(st, step);
    } else if step.LiveRecord? || step.LiveChange? {
      LiveFrom(st, step);
    } else {
      OtherFrom(st, step);
    }
  }

  // ---- whole runs ----

  /** Some step of the run pushed this text for this place, with this key. */
  ghost predicate WasPushed(steps: seq<Step>, p: Place, key: KeyId, text: Option<string>) {
    exists i :: 0 <= i < |steps| && Pushes(Run(EMPTY, steps[..i]), steps[i], p, key, text)
  }

  predicate WasReported(steps: seq<Step>, p: Place, text: Option<string>) {
    exists i :: 0 <= i < |steps| && Reports(steps[i], p, text)
  }

  predicate WasRewritten(steps: seq<Step>, p: Place, text: Option<string>) {
    exists i :: 0 <= i < |steps| && Rewrites(steps[i], p, text)
  }

  /** The text is what the credited party sent for this very place. */
  ghost predicate Credited(steps: seq<Step>, p: Place, row: Row) {
    match row.contentKey
    case Some(key) => row.contentActor == Some(ByKey) && WasPushed(steps, p, key, row.text)
    case None =>
      (row.contentActor == Some(ByChannel) && WasReported(steps, p, row.text)) ||
      (row.contentActor.None? && WasRewritten(steps, p, row.text))
  }

  lemma {:induction false} LongerRun(steps: seq<Step>, step: Step, p: Place)
    ensures forall key, text :: WasPushed(steps, p, key, text) || Pushes(Run(EMPTY, steps), step, p, key, text) ==>
      WasPushed(steps + [step], p, key, text)
    ensures forall text :: WasReported(steps, p, text) || Reports(step, p, text) ==> WasReported(steps + [step], p, text)
    ensures forall text :: WasRewritten(steps, p, text) || Rewrites(step, p, text) ==> WasRewritten(steps + [step], p, text)
  {
    hide Run, Pushes, Reports, Rewrites;
    var all := steps + [step];
    assert all[..|steps|] == steps && all[|steps|] == step;
    forall key, text | WasPushed(steps, p, key, text) ensures WasPushed(all, p, key, text) {
      var i :| 0 <= i < |steps| && Pushes(Run(EMPTY, steps[..i]), steps[i], p, key, text);
      assert all[..i] == steps[..i] && all[i] == steps[i];
    }
    forall text | WasReported(steps, p, text) ensures WasReported(all, p, text) {
      var i :| 0 <= i < |steps| && Reports(steps[i], p, text);
      assert all[i] == steps[i];
    }
    forall text | WasRewritten(steps, p, text) ensures WasRewritten(all, p, text) {
      var i :| 0 <= i < |steps| && Rewrites(steps[i], p, text);
      assert all[i] == steps[i];
    }
  }

  /**
    * From an empty archive, whatever the steps: every stored text was sent for its very place by whoever it is credited
    * to, in an accepted push of that key, by the channel, or by a rewrite without a key; and so was every candidate.
    */
  lemma {:induction false} EverythingWasSent(steps: seq<Step>, p: Place)
    requires p in Run(EMPTY, steps).messages
    ensures Credited(steps, p, Run(EMPTY, steps).messages[p].row)
    ensures forall k :: k in Run(EMPTY, steps).messages[p].cands ==> WasPushed(steps, p, k.key, k.text)
  {
    hide Apply, WasPushed, WasReported, WasRewritten, Pushes, Reports, Rewrites;
    if steps != [] {
      var front, step := steps[..|steps| - 1], steps[|steps| - 1];
      var st := Run(EMPTY, front);
      if p in st.messages {
        EverythingWasSent(front, p);
      }
      ReachableConsistent(front);
      AnyStepFrom(st, step);
      hide Inv;
      LongerRun(front, step, p);
      assert front + [step] == steps;
    }
  }

  /** A text stored by accepting a candidate was carried for that place by an accepted push of the key it is credited to. */
  lemma AcceptedWasPushed(steps: seq<Step>, id: MessageId, token: Token, c: nat, now: Time)
    requires Resolve(Run(EMPTY, steps), id, token, Accept(c), now).1 == Resolved
    ensures var end := Resolve(Run(EMPTY, steps), id, token, Accept(c), now).0;
      id.at in end.messages && end.messages[id.at].row.contentKey.Some? &&
      WasPushed(steps, id.at, end.messages[id.at].row.contentKey.value, end.messages[id.at].row.text)
  {
    var st := Run(EMPTY, steps);
    ReachableConsistent(steps);
    ReviewTouchesOne(st, id, token, Accept(c), now);
    AcceptTakes(st, id, token, c, now);
    hide Run, Inv, Resolve, WasPushed, TokenOf, Closes, DatedFrom;
    EverythingWasSent(steps, id.at);
  }
}
