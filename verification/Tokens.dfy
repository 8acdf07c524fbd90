/** Review tokens are free of ABA: a token that still matches names exactly what the reviewer saw. */
module Tokens {
  import opened Prelude
  import opened ArchiveTypes
  import opened Ingest
  import opened Disputes
  import opened Import
  import opened Runs
  import opened Consistency

  /**
    * What cannot un-happen to a message, whichever steps lie between two states. With an instant `c0` at which
    * no batch runs, a conflict mark of that instant also means that no candidate was added.
    */
  ghost predicate SlotGrows(s: Slot, t: Slot, before: nat, c0: Option<Time>) {
    && s.row.revision <= t.row.revision && t.row.body == s.row.body
    && (s.row.revision == t.row.revision ==>
          t.row == s.row.(conflictedAt := t.row.conflictedAt) &&
          forall k :: k in t.cands && t.cands[k].serial < before ==>
            k in s.cands && s.cands[k].serial == t.cands[k].serial && s.cands[k].firstSeen == t.cands[k].firstSeen &&
            s.cands[k].occurrences <= t.cands[k].occurrences &&
            (s.cands[k].occurrences == t.cands[k].occurrences ==> s.cands[k] == t.cands[k]))
    && (c0.Some? && s.row.revision == t.row.revision && t.row.conflictedAt == c0 ==>
          s.row.conflictedAt == c0 && t.cands.Keys <= s.cands.Keys)
  }

  ghost predicate GrowsAt(st: State, end: State, p: Place, c0: Option<Time>) {
    p in end.messages && end.messages[p].row.serial < st.serial ==>
      p in st.messages && st.messages[p].row.serial == end.messages[p].row.serial &&
      SlotGrows(st.messages[p], end.messages[p], st.serial, c0)
  }

  ghost predicate Grows(st: State, end: State, c0: Option<Time>) {
    st.serial <= end.serial && forall p :: GrowsAt(st, end, p, c0)
  }

  lemma SlotGrowsTrans(s: Slot, t: Slot, u: Slot, a: nat, b: nat, c0: Option<Time>)
    requires SlotGrows(s, t, a, c0) && SlotGrows(t, u, b, c0) && a <= b
    ensures SlotGrows(s, u, a, c0)
  {
  }

  lemma GrowsTrans(a: State, b: State, c: State, c0: Option<Time>)
    requires Grows(a, b, c0) && Grows(b, c, c0)
    ensures Grows(a, c, c0)
  {
    hide SlotGrows;
    forall p ensures GrowsAt(a, c, p, c0) {
      assert GrowsAt(a, b, p, c0) && GrowsAt(b, c, p, c0);
      if p in c.messages && c.messages[p].row.serial < a.serial {
        SlotGrowsTrans(a.messages[p], b.messages[p], c.messages[p], a.serial, b.serial, c0);
      }
    }
  }

  lemma SlotGrowsRefl(s: Slot, before: nat, c0: Option<Time>)
    ensures SlotGrows(s, s, before, c0)
  {
  }

  lemma GrowsWhenKept(st: State, end: State, c0: Option<Time>)
    requires st.serial <= end.serial
    requires forall p :: p in end.messages ==> p in st.messages && end.messages[p] == st.messages[p]
    ensures Grows(st, end, c0)
  {
    hide SlotGrows;
    forall p ensures GrowsAt(st, end, p, c0) {
      if p in end.messages {
        SlotGrowsRefl(st.messages[p], st.serial, c0);
      }
    }
  }

  /** One slot is replaced, or a fresh one appears. */
  lemma GrowsByPut(st: State, end: State, p: Place, c0: Option<Time>)
    requires st.serial <= end.serial && p in end.messages
    requires forall q :: q != p && q in end.messages ==> q in st.messages && end.messages[q] == st.messages[q]
    requires end.messages[p].row.serial >= st.serial ||
      (p in st.messages && st.messages[p].row.serial == end.messages[p].row.serial &&
       SlotGrows(st.messages[p], end.messages[p], st.serial, c0))
    ensures Grows(st, end, c0)
  {
    hide SlotGrows;
    forall q ensures GrowsAt(st, end, q, c0) {
      if q in end.messages && q != p {
        SlotGrowsRefl(st.messages[q], st.serial, c0);
      }
    }
  }

  lemma RecordGrows(st: State, src: SourceId, channel: string, m: Incoming, key: Option<KeyId>, editedAt: Option<Time>, c0: Option<Time>)
    ensures Grows(st, Record(st, src, channel, m, key, editedAt).0, c0)
  {
    hide SlotGrows, Grows;
    var end := Record(st, src, channel, m, key, editedAt).0;
    if PlaceOf(src, m) in st.messages {
      GrowsWhenKept(st, end, c0);
    } else {
      GrowsByPut(st, end, PlaceOf(src, m), c0);
    }
  }

  lemma BumpGrows(s: Slot, k: CandKey, now: Time, before: nat, c0: Option<Time>)
    requires c0 != Some(now)
    requires k in s.cands
    ensures SlotGrows(s, Bump(s, k, now), before, c0)
  {
  }

  lemma AddGrows(s: Slot, k: CandKey, now: Time, serial: nat, c0: Option<Time>)
    requires c0 != Some(now)
    requires k !in s.cands
    ensures SlotGrows(s, AddCandidate(s, k, now, serial), serial, c0)
  {
  }

  lemma CaptureGrows(st: State, p: Place, key: KeyId, text: Option<string>, now: Time, usage: Option<Budget>, c0: Option<Time>)
    requires c0 != Some(now)
    ensures var c := Capture(st, p, key, text, now, usage); c.Captured? ==> Grows(st, c.st, c0)
  {
    hide SlotGrows, Grows, Pending, Full;
    var c := Capture(st, p, key, text, now, usage);
    if c.Captured? {
      if c.st == st {
        GrowsWhenKept(st, st, c0);
      } else {
        var k := CandKey(st.messages[p].row.revision, key, text);
        if k in st.messages[p].cands {
          BumpGrows(st.messages[p], k, now, st.serial, c0);
        } else {
          AddGrows(st.messages[p], k, now, st.serial, c0);
        }
        GrowsByPut(st, c.st, p, c0);
      }
    }
  }

  lemma EditGrows(s: Slot, t: Slot, before: nat, c0: Option<Time>)
    requires t.row.revision == s.row.revision + 1 && t.row.body == s.row.body
    ensures SlotGrows(s, t, before, c0)
  {
  }

  lemma PushedEditGrows(st: State, p: Place, text: Option<string>, at: Time, key: Option<KeyId>, c0: Option<Time>)
    ensures Grows(st, PushedEdit(st, p, text, at, key).0, c0)
  {
    hide SlotGrows, Grows;
    var end := PushedEdit(st, p, text, at, key).0;
    if p in st.messages && PushedEditApplies(st.messages[p], at) {
      EditGrows(st.messages[p], end.messages[p], st.serial, c0);
      GrowsByPut(st, end, p, c0);
    } else {
      GrowsWhenKept(st, st, c0);
    }
  }

  lemma OneEntryGrows(a: Acc, ctx: Ctx, e: Entry, c0: Option<Time>)
    requires c0 != Some(ctx.now)
    ensures var f := OneEntry(a, ctx, e); f.Folded? ==> Grows(a.st, f.acc.st, c0)
  {
    hide Grows, Record, PushedEdit, Capture;
    var (st1, rec) := Record(a.st, ctx.src, ctx.channel, ToIncoming(e), Some(ctx.key), e.editedAt);
    var p := Place(ctx.src, e.chat, e.ext);
    RecordGrows(a.st, ctx.src, ctx.channel, ToIncoming(e), Some(ctx.key), e.editedAt, c0);
    if e.editedAt.Some? {
      PushedEditGrows(st1, p, e.text, e.editedAt.value, Some(ctx.key), c0);
      GrowsTrans(a.st, st1, PushedEdit(st1, p, e.text, e.editedAt.value, Some(ctx.key)).0, c0);
    } else {
      CaptureGrows(st1, p, ctx.key, e.text, ctx.now, a.usage, c0);
      var c := Capture(st1, p, ctx.key, e.text, ctx.now, a.usage);
      if c.Captured? {
        GrowsTrans(a.st, st1, c.st, c0);
      }
    }
  }

  lemma {:induction false} EntriesGrow(a: Acc, ctx: Ctx, ms: seq<Entry>, c0: Option<Time>)
    requires c0 != Some(ctx.now)
    ensures var f := Entries(a, ctx, ms); f.Folded? ==> Grows(a.st, f.acc.st, c0)
  {
    hide Grows, OneEntry;
    if ms == [] {
      GrowsWhenKept(a.st, a.st, c0);
    } else {
      EntriesGrow(a, ctx, ms[..|ms| - 1], c0);
      var f := Entries(a, ctx, ms[..|ms| - 1]);
      if f.Folded? {
        OneEntryGrows(f.acc, ctx, ms[|ms| - 1], c0);
        if OneEntry(f.acc, ctx, ms[|ms| - 1]).Folded? {
          GrowsTrans(a.st, f.acc.st, OneEntry(f.acc, ctx, ms[|ms| - 1]).acc.st, c0);
        }
      }
    }
  }

  ghost predicate Advanced(s: Slot, t: Slot) {
    t.row.serial == s.row.serial && t.row.revision == s.row.revision + 1 && t.row.body == s.row.body
  }

  /** Every slot is kept or moved to its next revision; none appears. */
  lemma GrowsByRevision(st: State, end: State, c0: Option<Time>)
    requires st.serial <= end.serial
    requires end.messages.Keys <= st.messages.Keys
    requires forall p :: p in end.messages ==> end.messages[p] == st.messages[p] || Advanced(st.messages[p], end.messages[p])
    ensures Grows(st, end, c0)
  {
    hide SlotGrows;
    forall p ensures GrowsAt(st, end, p, c0) {
      if p in end.messages {
        if end.messages[p] == st.messages[p] {
          SlotGrowsRefl(st.messages[p], st.serial, c0);
        } else {
          EditGrows(st.messages[p], end.messages[p], st.serial, c0);
        }
      }
    }
  }

  lemma DeleteGrows(st: State, src: SourceId, ref: DeleteRef, now: Time, c0: Option<Time>)
    ensures Grows(st, Delete(st, src, ref, now).0, c0)
  {
    hide Grows, DeleteHits;
    GrowsByRevision(st, Delete(st, src, ref, now).0, c0);
  }

  lemma {:induction false} DeletesGrow(st: State, src: SourceId, ds: seq<Deletion>, now: Time, c0: Option<Time>)
    ensures Grows(st, Deletes(st, src, ds, now).0, c0)
  {
    hide Grows, Delete;
    if ds == [] {
      GrowsWhenKept(st, st, c0);
    } else {
      DeletesGrow(st, src, ds[..|ds| - 1], now, c0);
      var d := ds[|ds| - 1];
      var mid := Deletes(st, src, ds[..|ds| - 1], now).0;
      DeleteGrows(mid, src, DeleteRef(Some(d.chat), d.ext, None), now, c0);
      GrowsTrans(st, mid, Delete(mid, src, DeleteRef(Some(d.chat), d.ext, None), now).0, c0);
    }
  }

  lemma ImportGrows(st: State, key: KeyId, b: Batch, now: Time, c0: Option<Time>)
    requires c0 != Some(now)
    ensures Grows(st, ImportBatch(st, key, b, now).0, c0)
  {
    hide Grows, Entries, Deletes, Pending;
    GrowsWhenKept(st, st, c0);
    if MayPush(st, key) {
      var (st1, src) := UpsertSource(st, key, b.source);
      var ctx := Ctx(src, b.source.channel, key, now);
      GrowsWhenKept(st, st1, c0);
      var a := Start(st1, Some(Pending(st1.messages)));
      EntriesGrow(a, ctx, b.messages, c0);
      var f := Entries(a, ctx, b.messages);
      if f.Folded? {
        var st2 := Deletes(f.acc.st, src, b.deletes, now).0;
        DeletesGrow(f.acc.st, src, b.deletes, now, c0);
        GrowsTrans(st, st1, f.acc.st, c0);
        GrowsTrans(st, f.acc.st, st2, c0);
        GrowsWhenKept(st2, Finish(f.acc, ctx, b).0, c0);
        GrowsTrans(st, st2, Finish(f.acc, ctx, b).0, c0);
      }
    }
  }

  lemma WithoutKeyGrows(s: Slot, key: KeyId, before: nat, c0: Option<Time>)
    ensures SlotGrows(s, WithoutKey(s, key), before, c0) && WithoutKey(s, key).row.serial == s.row.serial
  {
  }

  lemma PurgeGrows(st: State, key: KeyId, expected: Option<Preview>, c0: Option<Time>)
    ensures Grows(st, Purge(st, key, expected).0, c0)
  {
    hide SlotGrows, WithoutKey, PreviewOf, TouchedSources, Emptied;
    var end := Purge(st, key, expected).0;
    GrowsWhenKept(st, st, c0);
    forall p | p in end.messages && end != st ensures GrowsAt(st, end, p, c0) {
      WithoutKeyGrows(st.messages[p], key, st.serial, c0);
    }
  }

  lemma LiveEditGrows(st: State, src: SourceId, channel: string, m: Incoming, now: Time, c0: Option<Time>)
    ensures Grows(st, LiveEdit(st, src, channel, m, now), c0)
  {
    hide Grows;
    var st1 := UpsertChat(st, src, channel, m);
    GrowsWhenKept(st, st1, c0);
    RecordGrows(st1, src, channel, m, None, None, c0);
    GrowsTrans(st, st1, Record(st1, src, channel, m, None, None).0, c0);
    var p := PlaceOf(src, m);
    if p in st1.messages && st1.messages[p].row.deletedAt.None? && AuthoredBy(m.actor, st1.messages[p].row.body) {
      GrowsByRevision(st, LiveEdit(st, src, channel, m, now), c0);
    }
  }

  lemma ResolveGrows(st: State, id: MessageId, token: Token, action: Action, now: Time, c0: Option<Time>)
    ensures Grows(st, Resolve(st, id, token, action, now).0, c0)
  {
    hide Grows, TokenOf;
    GrowsByRevision(st, Resolve(st, id, token, action, now).0, c0);
  }

  /** No batch is imported at the instant c0. */
  predicate Avoids(step: Step, c0: Option<Time>) {
    step.PushBatch? ==> c0 != Some(step.now)
  }

  lemma StepGrows(st: State, step: Step, c0: Option<Time>)
    requires Avoids(step, c0)
    ensures Grows(st, Apply(st, step), c0)
  {
    hide Grows, ImportBatch, Record, LiveEdit, Delete, PushedEdit, Resolve, Purge;
    GrowsWhenKept(st, st, c0);
    match step
    case PushBatch(key, b, now) => ImportGrows(st, key, b, now, c0);
    case LiveRecord(s, m) => if s in st.sources { RecordGrows(st, s, st.sources[s].channel, m, None, None, c0); }
    case LiveChange(s, m, now) => if s in st.sources { LiveEditGrows(st, s, st.sources[s].channel, m, now, c0); }
    case LiveRemoval(s, ref, now) => DeleteGrows(st, s, ref, now, c0);
    case KeylessEdit(id, text, at) => PushedEditGrows(st, id.at, text, at, None, c0);
    case Review(id, token, action, now) => ResolveGrows(st, id, token, action, now, c0);
    case PurgeKey(key, expected) => PurgeGrows(st, key, expected, c0);
    case _ => GrowsWhenKept(st, Apply(st, step), c0);
  }

  lemma {:induction false} RunGrows(st: State, steps: seq<Step>, c0: Option<Time>)
    requires forall step :: step in steps ==> Avoids(step, c0)
    ensures Grows(st, Run(st, steps), c0)
  {
    hide Grows, Apply;
    if steps == [] {
      GrowsWhenKept(st, st, c0);
    } else {
      var mid := Run(st, steps[..|steps| - 1]);
      assert steps[|steps| - 1] in steps && forall step :: step in steps[..|steps| - 1] ==> step in steps;
      RunGrows(st, steps[..|steps| - 1], c0);
      StepGrows(mid, steps[|steps| - 1], c0);
      GrowsTrans(st, mid, Apply(mid, steps[|steps| - 1]), c0);
    }
  }

  // ---- what a matching token means ----

  /** A slot that grew from s and still answers to the same token is s, column for column. */
  lemma SameTokenSameSlot(s: Slot, t: Slot, before: nat)
    requires SlotOk(s, before) && SlotGrows(s, t, before, None) && TokenOf(s) == TokenOf(t)
    ensures s == t
  {
    forall k | k in t.cands ensures k in s.cands && s.cands[k] == t.cands[k] {
      var mark := Mark(t.cands[k].serial, t.cands[k].occurrences, t.cands[k].lastSeen);
      assert mark in TokenOf(t).marks;
      var j :| j in s.cands && mark == Mark(s.cands[j].serial, s.cands[j].occurrences, s.cands[j].lastSeen);
    }
    forall j | j in s.cands ensures j in t.cands {
      var mark := Mark(s.cands[j].serial, s.cands[j].occurrences, s.cands[j].lastSeen);
      assert mark in TokenOf(s).marks;
      var k :| k in t.cands && mark == Mark(t.cands[k].serial, t.cands[k].occurrences, t.cands[k].lastSeen);
      assert k in s.cands;
    }
  }

  /** A slot on the way from s back to s: the same row but for its mark, and at least the same candidates. */
  lemma BetweenKeeps(s: Slot, m: Slot, before: nat, mid: nat, c0: Option<Time>)
    requires SlotOk(s, before) && before <= mid
    requires SlotGrows(s, m, before, c0) && SlotGrows(m, s, mid, c0) && (c0.Some? ==> c0 == s.row.conflictedAt)
    ensures m.row == s.row.(conflictedAt := m.row.conflictedAt)
    ensures s.cands.Keys <= m.cands.Keys && forall k :: k in s.cands ==> m.cands[k] == s.cands[k]
    ensures c0.Some? ==> m == s
  {
    if c0.Some? {
      assert m.cands.Keys == s.cands.Keys;
    }
  }

  /** A token that succeeds was shown for exactly the row and candidates it now settles. */
  lemma TokenSeesTheSame(start: seq<Step>, between: seq<Step>, id: MessageId, action: Action, now: Time)
    requires UnderReview(Run(EMPTY, start), id).Some?
    requires var token := TokenOf(UnderReview(Run(EMPTY, start), id).value);
      Resolve(Run(Run(EMPTY, start), between), id, token, action, now).1 != Stale
    ensures UnderReview(Run(Run(EMPTY, start), between), id) == UnderReview(Run(EMPTY, start), id)
  {
    var st := Run(EMPTY, start);
    ReachableConsistent(start);
    RunGrows(st, between, None);
    var end := Run(st, between);
    assert SlotOk(st.messages[id.at], st.serial) && GrowsAt(st, end, id.at, None);
    hide Run, Inv, Grows, SlotGrows, SlotOk, TokenOf;
    SameTokenSameSlot(st.messages[id.at], end.messages[id.at], st.serial);
  }

  /**
    * All the way from the review to the resolution the message kept its text and revision and every candidate
    * the reviewer saw; if no batch ran at the very instant of the conflict mark, no other candidate ever appeared.
    */
  lemma NothingMovedBetween(start: seq<Step>, before: seq<Step>, after: seq<Step>, id: MessageId, action: Action, now: Time)
    requires UnderReview(Run(EMPTY, start), id).Some?
    requires var s := UnderReview(Run(EMPTY, start), id).value;
      Resolve(Run(Run(Run(EMPTY, start), before), after), id, TokenOf(s), action, now).1 != Stale
    ensures var s := UnderReview(Run(EMPTY, start), id).value; var mid := Run(Run(EMPTY, start), before);
      && id.at in mid.messages && mid.messages[id.at].row == s.row.(conflictedAt := mid.messages[id.at].row.conflictedAt)
      && (forall k :: k in s.cands ==> k in mid.messages[id.at].cands && mid.messages[id.at].cands[k] == s.cands[k])
      && ((forall step :: step in before + after ==> Avoids(step, s.row.conflictedAt)) ==> mid.messages[id.at] == s)
  {
    var st := Run(EMPTY, start);
    var s := st.messages[id.at];
    var c0 := if forall step :: step in before + after ==> Avoids(step, s.row.conflictedAt) then s.row.conflictedAt else None;
    assert forall step :: step in before || step in after ==> step in before + after;
    RunSplit(st, before, after);
    TokenSeesTheSame(start, before + after, id, action, now);
    ReachableConsistent(start);
    var mid := Run(st, before);
    RunGrows(st, before, c0);
    RunGrows(mid, after, c0);
    assert SlotOk(s, st.serial) && GrowsAt(mid, Run(mid, after), id.at, c0) && GrowsAt(st, mid, id.at, c0);
    hide Run, Inv, Grows, SlotGrows, SlotOk, TokenOf, Resolve;
    BetweenKeeps(s, mid.messages[id.at], st.serial, mid.serial, c0);
  }

  /** No token succeeds twice. */
  lemma TokenOnlyOnce(start: seq<Step>, id: MessageId, token: Token, action: Action, now: Time,
                      between: seq<Step>, action2: Action, now2: Time)
    requires Resolve(Run(EMPTY, start), id, token, action, now).1 == Resolved
    ensures var (st1, _) := Resolve(Run(EMPTY, start), id, token, action, now);
      Resolve(Run(st1, between), id, token, action2, now2).1 == Stale
  {
    var st := Run(EMPTY, start);
    var st1 := Resolve(st, id, token, action, now).0;
    ReachableConsistent(start);
    assert SlotOk(st.messages[id.at], st.serial);
    RunGrows(st1, between, None);
    assert GrowsAt(st1, Run(st1, between), id.at, None);
    hide Run, Inv, Grows, SlotOk;
  }
}
