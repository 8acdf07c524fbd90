/**
  * Between the showing of a dispute and its settlement: exactly when the archive showed nothing but what the reviewer saw
  * all the way through.
  */
module ReviewWindow {
  import opened Prelude
  import opened ArchiveTypes
  import opened Ingest
  import opened Disputes
  import opened Import
  import opened Runs
  import opened Tokens

  // ---- what a batch does to one undeleted message ----

  predicate Opposes(e: Entry, p: Place, text: Option<string>) {
    e.editedAt.None? && e.chat == p.chat && e.ext == p.ext && e.text != text
  }

  ghost predicate Moved(s: Slot, t: Slot) {
    t.row.revision > s.row.revision
  }

  /** The same revision, with a candidate or an occurrence more. */
  ghost predicate Gained(s: Slot, t: Slot) {
    && t.row.revision == s.row.revision && t.row.text == s.row.text
    && (forall k :: k in s.cands ==> k in t.cands && s.cands[k].occurrences <= t.cands[k].occurrences)
    && exists k :: k in t.cands && (k !in s.cands || s.cands[k].occurrences < t.cands[k].occurrences)
  }

  lemma GainedTrans(s: Slot, t: Slot, u: Slot)
    requires (s == t || Gained(s, t)) && Gained(t, u)
    ensures Gained(s, u)
  {
    var k :| k in u.cands && (k !in t.cands || t.cands[k].occurrences < u.cands[k].occurrences);
    assert k !in s.cands || s.cands[k].occurrences < u.cands[k].occurrences;
  }

  lemma GainedDiffers(s: Slot, t: Slot)
    requires Gained(s, t)
    ensures s != t
  {
  }

  lemma CaptureGains(st: State, p: Place, key: KeyId, text: Option<string>, now: Time, usage: Option<Budget>)
    requires p in st.messages && st.messages[p].row.deletedAt.None? && st.messages[p].row.text != text
    requires Capture(st, p, key, text, now, usage).Captured?
    ensures var st1 := Capture(st, p, key, text, now, usage).st;
      st1.messages.Keys == st.messages.Keys && st1.messages[p].row.deletedAt.None? && Gained(st.messages[p], st1.messages[p]) &&
      forall q :: q in st.messages && q != p ==> st1.messages[q] == st.messages[q]
  {
    hide Pending, Full;
    var t := Capture(st, p, key, text, now, usage).st.messages[p];
    assert CandKey(st.messages[p].row.revision, key, text) in t.cands;
  }

  lemma OneEntryAt(a: Acc, ctx: Ctx, e: Entry, p: Place)
    requires p in a.st.messages && a.st.messages[p].row.deletedAt.None? && OneEntry(a, ctx, e).Folded?
    ensures var st1 := OneEntry(a, ctx, e).acc.st; var s := a.st.messages[p];
      p in st1.messages && st1.messages[p].row.deletedAt.None? && st1.messages[p].row.revision >= s.row.revision &&
      if p.source == ctx.src && Opposes(e, p, s.row.text) then Gained(s, st1.messages[p])
      else Moved(s, st1.messages[p]) || st1.messages[p] == s
  {
    hide Capture;
    var st1 := Record(a.st, ctx.src, ctx.channel, ToIncoming(e), Some(ctx.key), e.editedAt).0;
    var q := Place(ctx.src, e.chat, e.ext);
    assert st1.messages[p] == a.st.messages[p];
    if q in a.st.messages && a.st.messages[q].row.deletedAt.None? && e.editedAt.None? && e.text != a.st.messages[q].row.text {
      CaptureGains(st1, q, ctx.key, e.text, ctx.now, a.usage);
    }
  }

  ghost predicate Opposed(ms: seq<Entry>, p: Place, text: Option<string>) {
    exists e :: e in ms && Opposes(e, p, text)
  }

  lemma {:induction false} EntriesAt(a: Acc, ctx: Ctx, ms: seq<Entry>, p: Place)
    requires p in a.st.messages && a.st.messages[p].row.deletedAt.None? && Entries(a, ctx, ms).Folded?
    ensures var st1 := Entries(a, ctx, ms).acc.st; var s := a.st.messages[p];
      p in st1.messages && st1.messages[p].row.deletedAt.None? && st1.messages[p].row.revision >= s.row.revision &&
      (Moved(s, st1.messages[p]) ||
       if p.source == ctx.src && Opposed(ms, p, s.row.text) then Gained(s, st1.messages[p]) else st1.messages[p] == s)
  {
    hide OneEntry, Opposes;
    if ms != [] {
      var front, e := ms[..|ms| - 1], ms[|ms| - 1];
      assert forall x :: x in ms <==> x in front || x == e;
      EntriesAt(a, ctx, front, p);
      var mid := Entries(a, ctx, front).acc;
      OneEntryAt(mid, ctx, e, p);
      var s, m, t := a.st.messages[p], mid.st.messages[p], OneEntry(mid, ctx, e).acc.st.messages[p];
      if !Moved(s, m) && Gained(m, t) {
        GainedTrans(s, m, t);
      }
    }
  }

  lemma {:induction false} DeletesAt(st: State, src: SourceId, ds: seq<Deletion>, now: Time, p: Place)
    requires p in st.messages
    ensures var st1 := Deletes(st, src, ds, now).0;
      p in st1.messages && (Moved(st.messages[p], st1.messages[p]) || st1.messages[p] == st.messages[p])
  {
    hide DeleteHits;
    if ds != [] {
      DeletesAt(st, src, ds[..|ds| - 1], now, p);
    }
  }

  /** An accepted batch into the message's source with an opposing, undated copy of it. */
  ghost predicate BatchOpposes(st: State, key: KeyId, b: Batch, now: Time, p: Place, text: Option<string>) {
    var out := ImportBatch(st, key, b, now).1;
    out.Ok? && out.value.source == p.source && Opposed(b.messages, p, text)
  }

  lemma ImportAt(st: State, key: KeyId, b: Batch, now: Time, p: Place)
    requires p in st.messages && st.messages[p].row.deletedAt.None?
    ensures var st1 := ImportBatch(st, key, b, now).0; var s := st.messages[p];
      p in st1.messages &&
      (Moved(s, st1.messages[p]) ||
       if BatchOpposes(st, key, b, now, p, s.row.text) then Gained(s, st1.messages[p]) else st1.messages[p] == s)
  {
    hide Entries, Deletes, Pending, Opposed, Gained;
    if ImportBatch(st, key, b, now).1.Ok? {
      var (st1, src) := UpsertSource(st, key, b.source);
      assert st1.messages == st.messages;
      var ctx := Ctx(src, b.source.channel, key, now);
      var a := Start(st1, Some(Pending(st1.messages)));
      EntriesAt(a, ctx, b.messages, p);
      var f := Entries(a, ctx, b.messages).acc;
      DeletesAt(f.st, src, b.deletes, now, p);
    }
  }

  // ---- what any other step does to it ----

  ghost predicate Lost(s: Slot, t: Slot) {
    exists k :: k in s.cands && k !in t.cands
  }

  lemma WithoutKeyAt(s: Slot, key: KeyId)
    ensures var t := WithoutKey(s, key); t == s || Moved(s, t) || Lost(s, t)
  {
    var kept := OfOthers(s.cands, key);
    if forall k :: k in s.cands ==> k in kept {
      assert kept == s.cands;
    }
  }

  lemma PurgeAt(st: State, key: KeyId, expected: Option<Preview>, p: Place)
    requires p in st.messages && p in Purge(st, key, expected).0.messages
    ensures var s, t := st.messages[p], Purge(st, key, expected).0.messages[p]; t == s || Moved(s, t) || Lost(s, t)
  {
    hide WithoutKey, PreviewOf, TouchedSources, Emptied, Moved, Lost;
    WithoutKeyAt(st.messages[p], key);
  }

  lemma OtherStepAt(st: State, step: Step, p: Place)
    requires !step.PushBatch? && p in st.messages && p in Apply(st, step).messages
    ensures var s, t := st.messages[p], Apply(st, step).messages[p]; t == s || Moved(s, t) || Lost(s, t)
  {
    hide Purge, TokenOf, DeleteHits, AuthoredBy, Lost, PushedEditApplies;
    if step.PurgeKey? {
      PurgeAt(st, step.key, step.expected, p);
    }
  }

  // ---- the window ----

  /** An accepted push into the message's source carries an undated copy of it with another text. */
  ghost predicate Disagrees(st: State, step: Step, p: Place, text: Option<string>) {
    step.PushBatch? && BatchOpposes(st, step.key, step.batch, step.now, p, text)
  }

  ghost predicate Showing(st: State, p: Place, s: Slot) {
    p in st.messages && st.messages[p] == s
  }

  /** A step after which the message still has its revision and its candidates changes it if and only if it disagrees. */
  lemma StepShowsIff(st: State, step: Step, p: Place, s: Slot)
    requires Showing(st, p, s) && s.row.deletedAt.None? && p in Apply(st, step).messages
    requires var t := Apply(st, step).messages[p]; t.row.revision == s.row.revision && s.cands.Keys <= t.cands.Keys
    ensures Showing(Apply(st, step), p, s) <==> !Disagrees(st, step, p, s.row.text)
  {
    if step.PushBatch? {
      assert Apply(st, step) == ImportBatch(st, step.key, step.batch, step.now).0;
      hide Apply, ImportBatch, BatchOpposes, Gained;
      ImportAt(st, step.key, step.batch, step.now, p);
      var t := Apply(st, step).messages[p];
      if Gained(s, t) {
        GainedDiffers(s, t);
      }
    } else {
      hide Apply;
      OtherStepAt(st, step, p);
    }
  }

  /** At every moment between the two the message is there, at the revision shown and with every candidate shown. */
  lemma StillThere(start: seq<Step>, between: seq<Step>, id: MessageId, action: Action, now: Time, i: nat)
    requires UnderReview(Run(EMPTY, start), id).Some? && i <= |between|
    requires var s := UnderReview(Run(EMPTY, start), id).value;
      Resolve(Run(Run(EMPTY, start), between), id, TokenOf(s), action, now).1 != Stale
    ensures var s := UnderReview(Run(EMPTY, start), id).value; var mid := Run(Run(EMPTY, start), between[..i]);
      id.at in mid.messages && mid.messages[id.at].row.revision == s.row.revision && s.cands.Keys <= mid.messages[id.at].cands.Keys
  {
    hide Run, Resolve, TokenOf;
    var st := Run(EMPTY, start);
    assert UnderReview(st, id).value == st.messages[id.at];
    hide UnderReview;
    RunSplit(st, between[..i], between[i..]);
    assert between[..i] + between[i..] == between;
    NothingMovedBetween(start, between[..i], between[i..], id, action, now);
  }

  lemma RunNext(st: State, steps: seq<Step>, i: nat)
    requires i < |steps|
    ensures Run(st, steps[..i + 1]) == Apply(Run(st, steps[..i]), steps[i])
  {
    hide Apply;
    assert steps[..i + 1][..i] == steps[..i];
  }

  lemma {:induction false} ShowsUpTo(start: seq<Step>, between: seq<Step>, id: MessageId, action: Action, now: Time, i: nat)
    requires UnderReview(Run(EMPTY, start), id).Some? && i <= |between|
    requires var s := UnderReview(Run(EMPTY, start), id).value;
      Resolve(Run(Run(EMPTY, start), between), id, TokenOf(s), action, now).1 != Stale
    requires var s := UnderReview(Run(EMPTY, start), id).value; var st := Run(EMPTY, start);
      forall j :: 0 <= j < i ==> !Disagrees(Run(st, between[..j]), between[j], id.at, s.row.text)
    ensures Showing(Run(Run(EMPTY, start), between[..i]), id.at, UnderReview(Run(EMPTY, start), id).value)
  {
    var st := Run(EMPTY, start);
    hide Apply, Resolve, TokenOf, Disagrees;
    if i == 0 {
      assert between[..0] == [];
    } else {
      hide Run;
      ShowsUpTo(start, between, id, action, now, i - 1);
      StillThere(start, between, id, action, now, i);
      RunNext(st, between, i - 1);
      StepShowsIff(Run(st, between[..i - 1]), between[i - 1], id.at, UnderReview(st, id).value);
    }
  }

  /**
    * A token that was shown and later succeeds: the archive showed exactly what the reviewer saw at every moment in
    * between if and only if no accepted push in between carried an undated copy of the message with another text.
    */
  lemma SeenThroughoutIff(start: seq<Step>, between: seq<Step>, id: MessageId, action: Action, now: Time)
    requires UnderReview(Run(EMPTY, start), id).Some?
    requires var s := UnderReview(Run(EMPTY, start), id).value;
      Resolve(Run(Run(EMPTY, start), between), id, TokenOf(s), action, now).1 != Stale
    ensures var st := Run(EMPTY, start); var s := UnderReview(st, id).value;
      (forall i :: 0 <= i <= |between| ==> Showing(Run(st, between[..i]), id.at, s)) <==>
      (forall i :: 0 <= i < |between| ==> !Disagrees(Run(st, between[..i]), between[i], id.at, s.row.text))
  {
    var st := Run(EMPTY, start);
    var s := UnderReview(st, id).value;
    assert s.row.deletedAt.None?;
    hide Run, Apply, Resolve, TokenOf, Disagrees, UnderReview;
    if forall i :: 0 <= i < |between| ==> !Disagrees(Run(st, between[..i]), between[i], id.at, s.row.text) {
      forall i | 0 <= i <= |between| ensures Showing(Run(st, between[..i]), id.at, s) {
        ShowsUpTo(start, between, id, action, now, i);
      }
    }
    if forall i :: 0 <= i <= |between| ==> Showing(Run(st, between[..i]), id.at, s) {
      forall i | 0 <= i < |between| ensures !Disagrees(Run(st, between[..i]), between[i], id.at, s.row.text) {
        assert Showing(Run(st, between[..i + 1]), id.at, s);
        RunNext(st, between, i);
        StepShowsIff(Run(st, between[..i]), between[i], id.at, s);
      }
    }
  }
}
