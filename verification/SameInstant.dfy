/**
  * Why what is shown can differ in between: a batch at the very millisecond of the conflict mark can show a further
  * candidate, and purging its key takes it away again, with the token still matching.
  */
module SameInstant {
  import opened Prelude
  import opened ArchiveTypes
  import opened Ingest
  import opened Disputes
  import opened Import
  import opened Runs
  import opened Consistency
  import opened Replay

  /** A batch of one undated, disagreeing copy adds one candidate and nothing else to the messages. */
  lemma LoneDisagreement(st: State, key: KeyId, b: Batch, e: Entry, now: Time, src: SourceId, p: Place)
    requires Inv(st) && MayPush(st, key) && b.messages == [e] && b.deletes == [] && e.editedAt.None?
    requires FindSource(st.sources, b.source) == Some(src) && p == Place(src, e.chat, e.ext) && p in st.messages
    requires st.messages[p].row.deletedAt.None? && st.messages[p].row.text != e.text
    requires CandKey(st.messages[p].row.revision, key, e.text) !in st.messages[p].cands
    requires !Full(Pending(st.messages), e.text)
    ensures var s := st.messages[p]; var st1 := ImportBatch(st, key, b, now).0;
      st1.messages == st.messages[p := AddCandidate(s, CandKey(s.row.revision, key, e.text), now, st.serial)] &&
      st1.keys == st.keys && st1.serial == st.serial + 1
    ensures var out := ImportBatch(st, key, b, now).1; out.Ok? && out.value.source == src
  {
    hide Pending, Full, PushedEdit, Inv, ToIncoming;
    var st0 := UpsertSource(st, key, b.source).0;
    var a := Start(st0, Some(Pending(st0.messages)));
    var ctx := Ctx(src, b.source.channel, key, now);
    assert b.messages[..0] == [];
    assert Entries(a, ctx, b.messages) == OneEntry(a, ctx, e);
    LoneEntry(a, ctx, e, p);
    hide OneEntry, Entries, UpsertSource, FindSource;
  }

  lemma LoneEntry(a: Acc, ctx: Ctx, e: Entry, p: Place)
    requires e.editedAt.None? && p == Place(ctx.src, e.chat, e.ext) && p in a.st.messages
    requires a.st.messages[p].row.deletedAt.None? && a.st.messages[p].row.text != e.text
    requires CandKey(a.st.messages[p].row.revision, ctx.key, e.text) !in a.st.messages[p].cands
    requires a.usage == Some(Pending(a.st.messages)) && !Full(Pending(a.st.messages), e.text)
    ensures var f := OneEntry(a, ctx, e); var s := a.st.messages[p];
      f.Folded? && f.acc.st.keys == a.st.keys && f.acc.st.serial == a.st.serial + 1 &&
      f.acc.st.messages == a.st.messages[p := AddCandidate(s, CandKey(s.row.revision, ctx.key, e.text), ctx.now, a.st.serial)]
  {
    hide Pending, Full, PushedEdit;
  }

  /** The key is then revoked and purged: the message is exactly as before the batch. */
  lemma PurgeTakesBack(s: Slot, key: KeyId, k: CandKey, now: Time, serial: nat)
    requires s.row.conflictedAt == Some(now) && s.cands != map[]
    requires k.key == key && forall j :: j in s.cands ==> j.key != key
    ensures WithoutKey(AddCandidate(s, k, now, serial), key) == s
  {
    var t := AddCandidate(s, k, now, serial);
    assert (map j | j in t.cands && j.key != key :: t.cands[j]) == s.cands;
  }

  /**
    * Whenever a disputed message is marked at the instant `now`, a further key that disagrees at that instant and is
    * then revoked and purged leaves the reviewed token valid, though the archive had shown one more candidate.
    */
  lemma MoreWasShown(st: State, key: KeyId, b: Batch, e: Entry, now: Time, src: SourceId, id: MessageId, s: Slot,
                     action: Action, later: Time)
    requires Inv(st) && MayPush(st, key) && b.messages == [e] && b.deletes == [] && e.editedAt.None?
    requires FindSource(st.sources, b.source) == Some(src) && id.at == Place(src, e.chat, e.ext)
    requires UnderReview(st, id) == Some(s) && s.row.conflictedAt == Some(now)
    requires s.row.text != e.text && s.row.pushKey != Some(key) && forall j :: j in s.cands ==> j.key != key
    requires !Full(Pending(st.messages), e.text)
    ensures var mid := ImportBatch(st, key, b, now).0; var k := CandKey(s.row.revision, key, e.text);
      k !in s.cands && id.at in mid.messages && k in mid.messages[id.at].cands
    ensures var end := Purge(Revoked(ImportBatch(st, key, b, now).0, key), key, None).0;
      Resolve(end, id, TokenOf(s), action, later).1 == Resolve(st, id, TokenOf(s), action, later).1 != Stale
  {
    var k := CandKey(s.row.revision, key, e.text);
    Marked(st, id.at);
    hide Pending, Full, FindSource, Inv, TokenOf, ImportBatch, Resolve, Purge, Revoked;
    LoneDisagreement(st, key, b, e, now, src, id.at);
    AddedIsThere(s, k, now, st.serial);
    TakenBack(ImportBatch(st, key, b, now).0, key, id, s, k, now, st.serial);
    SameAnswer(st, Purge(Revoked(ImportBatch(st, key, b, now).0, key), key, None).0, id, s, action, later);
  }

  lemma SameAnswer(st: State, end: State, id: MessageId, s: Slot, action: Action, later: Time)
    requires UnderReview(st, id) == Some(s) && UnderReview(end, id) == Some(s)
    ensures Resolve(end, id, TokenOf(s), action, later).1 == Resolve(st, id, TokenOf(s), action, later).1 != Stale
  {
    hide TokenOf, UnderReview, Settled;
  }

  lemma TakenBack(mid: State, key: KeyId, id: MessageId, s: Slot, k: CandKey, now: Time, serial: nat)
    requires key in mid.keys && mid.keys[key].canPush && id.at in mid.messages
    requires mid.messages[id.at] == AddCandidate(s, k, now, serial) && k.key == key
    requires s.row.serial == id.serial && s.row.deletedAt.None? && s.row.conflictedAt == Some(now) && s.cands != map[]
    requires s.row.pushKey != Some(key) && forall j :: j in s.cands ==> j.key != key
    ensures UnderReview(Purge(Revoked(mid, key), key, None).0, id) == Some(s)
  {
    hide WithoutKey, Purge, TokenOf;
    PurgeTakesBack(s, key, k, now, serial);
    PurgeKeepsPlace(Revoked(mid, key), key, id.at);
  }

  /** The state after step RevokeKey(key). */
  function Revoked(st: State, key: KeyId): State {
    if key in st.keys then st.(keys := st.keys[key := st.keys[key].(revoked := true)]) else st
  }

  lemma AddedIsThere(s: Slot, k: CandKey, now: Time, serial: nat)
    ensures var t := AddCandidate(s, k, now, serial); k in t.cands && t.row == s.row.(conflictedAt := Some(now))
  {
  }

  lemma Marked(st: State, p: Place)
    requires Inv(st) && p in st.messages && st.messages[p].row.conflictedAt.Some?
    ensures st.messages[p].cands != map[]
  {
    assert SlotOk(st.messages[p], st.serial);
  }

  lemma PurgeKeepsPlace(st: State, key: KeyId, p: Place)
    requires key in st.keys && st.keys[key].revoked && st.keys[key].canPush
    requires p in st.messages && st.messages[p].row.pushKey != Some(key)
    ensures var end := Purge(st, key, None).0; p in end.messages && end.messages[p] == WithoutKey(st.messages[p], key)
  {
    hide WithoutKey, PreviewOf, TouchedSources;
  }

  // ---- a run from the empty archive ----

  const REF := SourceRef("notes", "account", "name")

  // The message was sent before the first push; the other two pushes are at one later instant.
  const SENT := 1_700_000_000_000
  const FIRST := 1_700_000_000_005
  const MARKED := 1_700_000_000_007

  /** An undated copy of the one message. */
  function Copy(text: string): Entry {
    Entry("chat", Dm, None, "1", None, None, false, SENT, ArchiveTypes.Text, Some(text), None, None, None)
  }

  function Upload(text: string): Batch {
    Batch(REF, [Copy(text)], [])
  }

  const DAY := 86_400_000
  const EARLIEST := 631_152_000_000

  /** What the push door asks of a batch: no live channel's name, and sent between 1990 and one day from now. */
  predicate Admitted(b: Batch, now: Time) {
    b.source.channel != "telegram" && b.source.channel != "whatsapp" &&
    forall e :: e in b.messages ==> EARLIEST <= e.sentAt <= now + DAY
  }

  const HERE := Place(3, "chat", "1")

  const MINTS := [MintKey(true), MintKey(true), MintKey(true)]

  /** Three push keys. */
  function Minted(): State {
    State(map[0 := Key(true, false), 1 := Key(true, false), 2 := Key(true, false)], map[], map[], map[], 3)
  }

  lemma RunNone(st: State)
    ensures Run(st, []) == st
  {
  }

  lemma RunOn(st: State, steps: seq<Step>, step: Step)
    ensures Run(st, steps + [step]) == Apply(Run(st, steps), step)
  {
    hide Apply;
    assert (steps + [step])[..|steps|] == steps;
  }

  lemma MintedAfter()
    ensures Run(EMPTY, MINTS) == Minted()
  {
    var k := MintKey(true);
    RunNone(EMPTY);
    RunOn(EMPTY, [], k);
    RunOn(EMPTY, [k], k);
    RunOn(EMPTY, [k, k], k);
    assert [] + [k] == [k] && [k] + [k] == [k, k] && [k, k] + [k] == MINTS;
    hide Run;
    var one := map[0 := Key(true, false)];
    assert Run(EMPTY, [k]) == State(one, map[], map[], map[], 1);
    assert Run(EMPTY, [k, k]) == State(one[1 := Key(true, false)], map[], map[], map[], 2);
    assert one[1 := Key(true, false)][2 := Key(true, false)] == Minted().keys;
  }

  /** The first key delivers the message, into a new source. */
  lemma FirstDelivery()
    ensures var (st, out) := ImportBatch(Minted(), 0, Upload("x"), FIRST);
      && out.Ok? && out.value.source == 3 && st.keys == Minted().keys && st.serial == 5
      && st.messages == map[HERE := NewSlot(ToIncoming(Copy("x")), Some(0), None, 4)]
  {
    var st := Minted();
    var b := Upload("x");
    assert FindSource(st.sources, REF) == None;
    var st1 := UpsertSource(st, 0, REF).0;
    var a := Start(st1, Some(Pending(st1.messages)));
    var ctx := Ctx(3, "notes", 0, FIRST);
    assert b.messages[..0] == [];
    assert Entries(a, ctx, b.messages) == OneEntry(a, ctx, Copy("x"));
    hide Pending, ToIncoming;
  }

  function Delivered(): Slot {
    NewSlot(ToIncoming(Copy("x")), Some(0), None, 4)
  }

  lemma NothingPending()
    ensures Pending(map[HERE := Delivered()]) == Budget(0, 0)
  {
    assert Refs(map[HERE := Delivered()]) == {};
  }

  lemma OneByte(c: char)
    requires c < '\U{80}'
    ensures TextBytes(Some([c])) == 1
  {
    assert [c][..0] == "";
    assert StringBytes([c]) == StringBytes("") + CharBytes(c);
  }

  function Shown(): Slot {
    AddCandidate(Delivered(), CandKey(0, 1, Some("y")), MARKED, 5)
  }

  lemma OnePending()
    ensures Pending(map[HERE := Shown()]) == Budget(1, 1)
  {
    NothingPending();
    OneByte('y');
    var m := map[HERE := Delivered()];
    hide Pending, TextBytes;
    AddCandidateFits(m, HERE, CandKey(0, 1, Some("y")), MARKED, 5);
    assert m[HERE := Shown()] == map[HERE := Shown()];
  }

  /** Ready for a further key: the message as delivered by the first. */
  lemma AfterFirst()
    ensures var st := ImportBatch(Minted(), 0, Upload("x"), FIRST).0;
      && Inv(st) && FindSource(st.sources, REF) == Some(3) && st.keys == Minted().keys && st.serial == 5
      && st.messages == map[HERE := Delivered()]
  {
    MintedAfter();
    ReachableConsistent(MINTS);
    FirstDelivery();
    SourceStays(Minted(), 0, Upload("x"), FIRST);
    hide *;
  }

  lemma CopyIs(text: string)
    ensures var e := Copy(text); e.chat == "chat" && e.ext == "1" && e.text == Some(text) && e.editedAt.None?
    ensures Upload(text).messages == [Copy(text)] && Upload(text).deletes == [] && Upload(text).source == REF
  {
  }

  lemma DeliveredIs()
    ensures var s := Delivered(); s.row.text == Some("x") && s.row.deletedAt.None? && s.row.revision == 0 && s.cands == map[]
  {
  }

  lemma MayStillPush(st: State)
    requires st.keys == Minted().keys
    ensures MayPush(st, 1) && MayPush(st, 2)
  {
  }

  lemma PutAgain(p: Place, s: Slot, t: Slot)
    ensures map[p := s][p := t] == map[p := t]
  {
  }

  lemma SecondDelivery(st: State)
    requires Inv(st) && FindSource(st.sources, REF) == Some(3) && st.keys == Minted().keys && st.serial == 5
    requires st.messages == map[HERE := Delivered()]
    ensures var (st1, out) := ImportBatch(st, 1, Upload("y"), MARKED);
      out.Ok? && out.value.source == 3 && st1.keys == st.keys && st1.messages == st.messages[HERE := Shown()]
  {
    NothingPending();
    OneByte('y');
    DeliveredIs();
    MayStillPush(st);
    CopyIs("y");
    hide Inv, Pending, TextBytes, FindSource, ImportBatch, Delivered, Minted, AddCandidate, Copy, Upload, MayPush;
    LoneDisagreement(st, 1, Upload("y"), Copy("y"), MARKED, 3, HERE);
  }

  /** The second key disagrees: this is what the reviewer is shown. */
  lemma AfterSecond(st: State)
    requires Inv(st) && FindSource(st.sources, REF) == Some(3) && st.keys == Minted().keys && st.serial == 5
    requires st.messages == map[HERE := Delivered()]
    ensures var st1 := ImportBatch(st, 1, Upload("y"), MARKED).0;
      Inv(st1) && FindSource(st1.sources, REF) == Some(3) && st1.keys == Minted().keys && st1.messages == map[HERE := Shown()]
  {
    CopyIs("y");
    SecondDelivery(st);
    hide *;
    SourceStays(st, 1, Upload("y"), MARKED);
    PutAgain(HERE, Delivered(), Shown());
  }

  /** The third key disagrees at the same instant and is then revoked and purged. */
  lemma AfterThird(st: State, action: Action, later: Time)
    requires Inv(st) && FindSource(st.sources, REF) == Some(3) && st.keys == Minted().keys && st.messages == map[HERE := Shown()]
    ensures var id := MessageId(HERE, 4); var mid := ImportBatch(st, 2, Upload("z"), MARKED).0;
      && UnderReview(st, id) == Some(Shown()) && HERE in mid.messages && mid.messages[HERE] != Shown()
      && Resolve(Purge(Revoked(mid, 2), 2, None).0, id, TokenOf(Shown()), action, later).1 != Stale
  {
    OnePending();
    OneByte('z');
    hide Inv, Pending, TextBytes, FindSource, ImportBatch, Resolve, Purge, TokenOf;
    MoreWasShown(st, 2, Upload("z"), Copy("z"), MARKED, 3, MessageId(HERE, 4), Shown(), action, later);
  }

  const START := MINTS + [PushBatch(0, Upload("x"), FIRST)] + [PushBatch(1, Upload("y"), MARKED)]
  const BETWEEN := [PushBatch(2, Upload("z"), MARKED)] + [RevokeKey(2)] + [PurgeKey(2, None)]

  lemma UploadAdmitted(text: string, now: Time)
    requires now >= SENT
    ensures Admitted(Upload(text), now)
  {
    assert Upload(text).messages == [Copy(text)];
  }

  lemma AllAdmitted()
    ensures forall step :: step in START + BETWEEN && step.PushBatch? ==> Admitted(step.batch, step.now)
  {
    UploadAdmitted("x", FIRST);
    UploadAdmitted("y", MARKED);
    UploadAdmitted("z", MARKED);
    hide Admitted, Upload;
    forall step | step in START + BETWEEN && step.PushBatch? ensures Admitted(step.batch, step.now) {
      assert step in MINTS || step in [PushBatch(0, Upload("x"), FIRST)] || step in [PushBatch(1, Upload("y"), MARKED)] || step in BETWEEN;
    }
  }

  lemma StartRuns()
    ensures Run(EMPTY, START) == ImportBatch(ImportBatch(Minted(), 0, Upload("x"), FIRST).0, 1, Upload("y"), MARKED).0
  {
    MintedAfter();
    hide ImportBatch, Minted, Upload, Run;
    RunOn(EMPTY, MINTS, PushBatch(0, Upload("x"), FIRST));
    RunOn(EMPTY, MINTS + [PushBatch(0, Upload("x"), FIRST)], PushBatch(1, Upload("y"), MARKED));
  }

  lemma BetweenRuns(st: State)
    ensures var mid := ImportBatch(st, 2, Upload("z"), MARKED).0;
      Run(st, BETWEEN[..1]) == mid && Run(st, BETWEEN) == Purge(Revoked(mid, 2), 2, None).0
  {
    hide ImportBatch, Purge, Upload, Run;
    var a, b, c := PushBatch(2, Upload("z"), MARKED), RevokeKey(2), PurgeKey(2, None);
    assert BETWEEN[..1] == [] + [a] && [] + [a] == [a];
    RunNone(st);
    RunOn(st, [], a);
    RunOn(st, [a], b);
    RunOn(st, [a] + [b], c);
  }

  /**
    * A whole run: three keys, two of them disagreeing with the first at one instant, the last revoked and purged. The
    * token shown before still succeeds, whatever the action, and the archive had shown something else in between.
    */
  lemma ThreeKeys(action: Action, later: Time)
    ensures forall step :: step in START + BETWEEN && step.PushBatch? ==> Admitted(step.batch, step.now)
    ensures var st := Run(EMPTY, START); var id := MessageId(HERE, 4);
      && UnderReview(st, id) == Some(Shown())
      && Resolve(Run(st, BETWEEN), id, TokenOf(Shown()), action, later).1 != Stale
      && HERE in Run(st, BETWEEN[..1]).messages && Run(st, BETWEEN[..1]).messages[HERE] != Shown()
  {
    var st := Run(EMPTY, START);
    AllAdmitted();
    StartRuns();
    BetweenRuns(st);
    hide *;
    AfterFirst();
    AfterSecond(ImportBatch(Minted(), 0, Upload("x"), FIRST).0);
    AfterThird(st, action, later);
  }
}
